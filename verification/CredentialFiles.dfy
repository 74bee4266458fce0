/**
  The files that hand database credentials to the dump tools
  (agent/src/backupLifecycle.ts:45-77). The readers follow section 34.16, "The Password
  File", of the PostgreSQL 16 documentation and "Using Option Files" of the MySQL Reference
  Manual.
 */
module CredentialFiles {
  /** Every occurrence of a character by a text, as a global replacement does it. */
  function Replace(s: string, c: char, text: string): string {
    if s == "" then "" else (if s[0] == c then text else [s[0]]) + Replace(s[1..], c, text)
  }

  /** Backslashes first: the separators' own backslashes must not be doubled. */
  function EscapeField(field: string): string { Replace(Replace(field, '\\', "\\\\"), ':', "\\:") }

  function PasswordLine(fields: seq<string>): string
    requires fields != []
  {
    if |fields| == 1 then EscapeField(fields[0]) else EscapeField(fields[0]) + ":" + PasswordLine(fields[1..])
  }

  /** postgresPasswordFile, from host, port, database, user and password. */
  function PasswordFile(fields: seq<string>): string
    requires fields != []
  {
    PasswordLine(fields) + "\n"
  }

  function Quoted(value: string): string {
    Replace(Replace(Replace(Replace(Replace(Replace(
      value, '\\', "\\\\"), '"', "\\\""), '\n', "\\n"), '\r', "\\r"), '\t', "\\t"), '\U{0008}', "\\b")
  }

  /** defaultsValue, for one option of a MySQL option file. */
  function DefaultsValue(value: string): string { "\"" + Quoted(value) + "\"" }

  // ---- the readers ----

  /** The fields of a line: a backslash takes the next character literally, a bare colon
      ends a field. */
  function ReadFields(line: string): (fields: seq<string>)
    ensures fields != []
  {
    if line == "" then [""]
    else if line[0] == ':' then [""] + ReadFields(line[1..])
    else if line[0] == '\\' && |line| > 1 then
      var rest := ReadFields(line[2..]);
      [[line[1]] + rest[0]] + rest[1..]
    else
      var rest := ReadFields(line[1..]);
      [[line[0]] + rest[0]] + rest[1..]
  }

  function Unescaped(c: char): char {
    if c == 'n' then '\n' else if c == 'r' then '\r' else if c == 't' then '\t'
    else if c == 'b' then '\U{0008}' else if c == 's' then ' ' else c
  }

  /** The text up to the closing quote, or nothing if there is none. */
  function ReadQuoted(s: string): (string, bool) {
    if s == "" then ("", false)
    else if s[0] == '"' then ("", |s| == 1)
    else if s[0] == '\\' && |s| > 1 then
      var (rest, closed) := ReadQuoted(s[2..]);
      ([Unescaped(s[1])] + rest, closed)
    else
      var (rest, closed) := ReadQuoted(s[1..]);
      ([s[0]] + rest, closed)
  }

  // ---- round trips ----

  lemma {:induction false} ReplaceConcat(a: string, b: string, c: char, text: string)
    ensures Replace(a + b, c, text) == Replace(a, c, text) + Replace(b, c, text)
  {
    if a == "" {
      assert a + b == b;
    } else {
      assert (a + b)[1..] == a[1..] + b;
      ReplaceConcat(a[1..], b, c, text);
    }
  }

  lemma ReplaceOne(x: char, c: char, text: string)
    ensures Replace([x], c, text) == if x == c then text else [x]
  {
    assert [x][1..] == "";
  }

  lemma ReplaceTwo(x: char, y: char, c: char, text: string)
    requires x != c && y != c
    ensures Replace([x, y], c, text) == [x, y]
  {
    assert [x, y] == [x] + [y];
    ReplaceConcat([x], [y], c, text);
    ReplaceOne(x, c, text);
    ReplaceOne(y, c, text);
  }

  /** Escaping works character by character. */
  lemma EscapeFirst(c: char, rest: string)
    ensures EscapeField([c] + rest) == (if c == '\\' || c == ':' then ['\\', c] else [c]) + EscapeField(rest)
  {
    ReplaceConcat([c], rest, '\\', "\\\\");
    ReplaceOne(c, '\\', "\\\\");
    var first := Replace([c], '\\', "\\\\");
    ReplaceConcat(first, Replace(rest, '\\', "\\\\"), ':', "\\:");
    if c == '\\' {
      ReplaceTwo('\\', '\\', ':', "\\:");
    } else {
      ReplaceOne(c, ':', "\\:");
    }
  }

  /** Where a field ends, or a line. */
  lemma {:induction false} FieldIsRead(field: string, rest: string)
    requires rest == "" || rest[0] == ':'
    ensures ReadFields(EscapeField(field) + rest) == [field] + ReadFields(rest)[1..]
  {
    if field == "" {
      assert EscapeField("") + rest == rest;
      if rest != "" {
        assert ReadFields(rest)[1..] == ReadFields(rest[1..]);
      }
    } else {
      var c, more := field[0], field[1..];
      assert field == [c] + more;
      EscapeFirst(c, more);
      FieldIsRead(more, rest);
      var line := EscapeField(field) + rest;
      var skipped := if c == '\\' || c == ':' then 2 else 1;
      assert line[skipped..] == EscapeField(more) + rest;
    }
  }

  /** The password file is read back as the fields it was made of, whatever they contain. */
  lemma {:induction false} PasswordFileRoundTrip(fields: seq<string>)
    requires fields != []
    ensures ReadFields(PasswordLine(fields)) == fields
    ensures PasswordFile(fields)[..|PasswordFile(fields)| - 1] == PasswordLine(fields)
  {
    if |fields| == 1 {
      FieldIsRead(fields[0], "");
      assert EscapeField(fields[0]) + "" == EscapeField(fields[0]);
    } else {
      PasswordFileRoundTrip(fields[1..]);
      var rest := ":" + PasswordLine(fields[1..]);
      assert rest[1..] == PasswordLine(fields[1..]);
      FieldIsRead(fields[0], rest);
      assert EscapeField(fields[0]) + ":" + PasswordLine(fields[1..]) == EscapeField(fields[0]) + rest;
    }
  }

  function QuotedChar(c: char): string {
    if c == '\\' then "\\\\" else if c == '"' then "\\\"" else if c == '\n' then "\\n" else if c == '\r' then "\\r"
    else if c == '\t' then "\\t" else if c == '\U{0008}' then "\\b" else [c]
  }

  lemma QuotedConcat(a: string, b: string)
    ensures Quoted(a + b) == Quoted(a) + Quoted(b)
  {
    hide Replace;
    ReplaceConcat(a, b, '\\', "\\\\");
    var a1, b1 := Replace(a, '\\', "\\\\"), Replace(b, '\\', "\\\\");
    ReplaceConcat(a1, b1, '"', "\\\"");
    var a2, b2 := Replace(a1, '"', "\\\""), Replace(b1, '"', "\\\"");
    ReplaceConcat(a2, b2, '\n', "\\n");
    var a3, b3 := Replace(a2, '\n', "\\n"), Replace(b2, '\n', "\\n");
    ReplaceConcat(a3, b3, '\r', "\\r");
    var a4, b4 := Replace(a3, '\r', "\\r"), Replace(b3, '\r', "\\r");
    ReplaceConcat(a4, b4, '\t', "\\t");
    var a5, b5 := Replace(a4, '\t', "\\t"), Replace(b4, '\t', "\\t");
    ReplaceConcat(a5, b5, '\U{0008}', "\\b");
  }

  lemma {:induction false} Untouched(s: string, c: char, text: string)
    requires c !in s
    ensures Replace(s, c, text) == s
  {
    if s != "" {
      assert s == [s[0]] + s[1..];
      Untouched(s[1..], c, text);
    }
  }

  /** No pass touches what an earlier one wrote. */
  lemma QuotedOne(c: char)
    ensures Quoted([c]) == QuotedChar(c)
  {
    hide Replace;
    ReplaceOne(c, '\\', "\\\\");
    var s1 := Replace([c], '\\', "\\\\");
    if c == '"' { ReplaceOne(c, '"', "\\\""); } else { Untouched(s1, '"', "\\\""); }
    var s2 := Replace(s1, '"', "\\\"");
    if c == '\n' { ReplaceOne(c, '\n', "\\n"); } else { Untouched(s2, '\n', "\\n"); }
    var s3 := Replace(s2, '\n', "\\n");
    if c == '\r' { ReplaceOne(c, '\r', "\\r"); } else { Untouched(s3, '\r', "\\r"); }
    var s4 := Replace(s3, '\r', "\\r");
    if c == '\t' { ReplaceOne(c, '\t', "\\t"); } else { Untouched(s4, '\t', "\\t"); }
    var s5 := Replace(s4, '\t', "\\t");
    if c == '\U{0008}' { ReplaceOne(c, '\U{0008}', "\\b"); } else { Untouched(s5, '\U{0008}', "\\b"); }
  }

  lemma EscapedIsRead(x: char, rest: string)
    ensures ReadQuoted(['\\', x] + rest) == ([Unescaped(x)] + ReadQuoted(rest).0, ReadQuoted(rest).1)
  {
    var line := ['\\', x] + rest;
    assert line[2..] == rest && line[1] == x;
  }

  lemma PlainIsRead(c: char, rest: string)
    requires c != '"' && c != '\\'
    ensures ReadQuoted([c] + rest) == ([c] + ReadQuoted(rest).0, ReadQuoted(rest).1)
  {
    var line := [c] + rest;
    assert line[1..] == rest;
  }

  lemma QuotedCharIsRead(c: char, rest: string)
    ensures ReadQuoted(QuotedChar(c) + rest) == ([c] + ReadQuoted(rest).0, ReadQuoted(rest).1)
  {
    hide ReadQuoted;
    if QuotedChar(c) == [c] {
      PlainIsRead(c, rest);
    } else {
      var x := QuotedChar(c)[1];
      assert QuotedChar(c) == ['\\', x] && Unescaped(x) == c;
      EscapedIsRead(x, rest);
    }
  }

  lemma {:induction false} QuotedIsRead(value: string)
    ensures ReadQuoted(Quoted(value) + "\"") == (value, true)
  {
    if value == "" {
      assert Quoted("") + "\"" == "\"";
    } else {
      var c, rest := value[0], value[1..];
      assert value == [c] + rest;
      QuotedConcat([c], rest);
      QuotedOne(c);
      QuotedIsRead(rest);
      hide Quoted, QuotedChar, ReadQuoted;
      QuotedCharIsRead(c, Quoted(rest) + "\"");
      assert Quoted(value) + "\"" == QuotedChar(c) + (Quoted(rest) + "\"");
    }
  }

  /** An option value is read back as it was, and the text ends with its closing quote. */
  lemma DefaultsValueRoundTrip(value: string)
    ensures DefaultsValue(value)[0] == '"'
    ensures ReadQuoted(DefaultsValue(value)[1..]) == (value, true)
  {
    QuotedIsRead(value);
    assert DefaultsValue(value)[1..] == Quoted(value) + "\"";
  }
}
