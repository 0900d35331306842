/** How the file tier turns a context key into a file name, and when two keys share one. */
module FileNames {

  /** `s.replace(c, with)` for one character. */
  function Replace(s: string, c: char, with: string): string {
    if s == "" then "" else (if s[0] == c then with else [s[0]]) + Replace(s[1..], c, with)
  }

  const SLASH := "_SLASH_"

  const BSLASH := "_BSLASH_"

  const COLON := "_COLON_"

  /** `key_to_filename`: three replacements, one after the other. */
  function FileName(key: string): string {
    Replace(Replace(Replace(key, '/', SLASH), '\\', BSLASH), ':', COLON)
  }

  // ── One pass instead of three ──────────────────────────────────────

  function Escape(c: char): string {
    if c == '/' then SLASH else if c == '\\' then BSLASH else if c == ':' then COLON else [c]
  }

  lemma {:induction false} ReplaceConcat(a: string, b: string, c: char, with: string)
    ensures Replace(a + b, c, with) == Replace(a, c, with) + Replace(b, c, with)
  {
    if a == "" {
      assert a + b == b;
    } else {
      var front := if a[0] == c then with else [a[0]];
      var x, y := Replace(a[1..], c, with), Replace(b, c, with);
      ReplaceConcat(a[1..], b, c, with);
      assert (a + b)[1..] == a[1..] + b;
      assert front + (x + y) == (front + x) + y;
    }
  }

  lemma {:induction false} ReplaceAbsent(s: string, c: char, with: string)
    requires c !in s
    ensures Replace(s, c, with) == s
  {
    if s == "" {
    } else {
      ReplaceAbsent(s[1..], c, with);
    }
  }

  lemma {:induction false} ReplaceOne(d: char, c: char, with: string)
    ensures Replace([d], c, with) == if d == c then with else [d]
  {
    assert [d][1..] == "" && Replace("", c, with) == "";
  }

  /** An escape holds nothing that a later pass would replace. */
  lemma {:induction false} PlainStays(escape: string)
    requires escape == SLASH || escape == BSLASH
    ensures Replace(escape, '\\', BSLASH) == escape && Replace(escape, ':', COLON) == escape
  {
    hide Replace;
    ReplaceAbsent(escape, '\\', BSLASH);
    ReplaceAbsent(escape, ':', COLON);
  }

  lemma SlashOnly()
    ensures FileName("/") == SLASH
  {
    hide Replace;
    ReplaceOne('/', '/', SLASH);
    PlainStays(SLASH);
  }

  lemma BackslashOnly()
    ensures FileName("\\") == BSLASH
  {
    hide Replace;
    ReplaceOne('\\', '/', SLASH);
    ReplaceOne('\\', '\\', BSLASH);
    PlainStays(BSLASH);
  }

  lemma FileNameOfChar(c: char)
    ensures FileName([c]) == Escape(c)
  {
    if c == '/' {
      SlashOnly();
    } else if c == '\\' {
      BackslashOnly();
    } else {
      ReplaceOne(c, '/', SLASH);
      ReplaceOne(c, '\\', BSLASH);
      ReplaceOne(c, ':', COLON);
    }
  }

  lemma PlainName(s: string)
    requires Plain(s)
    ensures FileName(s) == s
  {
    ReplaceAbsent(s, '/', SLASH);
    ReplaceAbsent(s, '\\', BSLASH);
    ReplaceAbsent(s, ':', COLON);
  }

  lemma FileNameConcat(a: string, b: string)
    ensures FileName(a + b) == FileName(a) + FileName(b)
  {
    ReplaceConcat(a, b, '/', SLASH);
    ReplaceConcat(Replace(a, '/', SLASH), Replace(b, '/', SLASH), '\\', BSLASH);
    ReplaceConcat(Replace(Replace(a, '/', SLASH), '\\', BSLASH), Replace(Replace(b, '/', SLASH), '\\', BSLASH), ':', COLON);
  }

  /** The three passes together escape the key character by character. */
  lemma FileNameCons(key: string)
    requires key != ""
    ensures FileName(key) == Escape(key[0]) + FileName(key[1..])
  {
    assert key == [key[0]] + key[1..];
    FileNameConcat([key[0]], key[1..]);
    FileNameOfChar(key[0]);
  }

  lemma EscapesDiffer(c: char, d: char, x: string, y: string)
    requires c != '_' && d != '_' && Escape(c) + x == Escape(d) + y
    ensures c == d && x == y
  {
    assert (Escape(c) + x)[0] == Escape(c)[0] && (Escape(d) + y)[0] == Escape(d)[0];
    if |Escape(c)| > 1 && |Escape(d)| > 1 {
      assert (Escape(c) + x)[1] == Escape(c)[1] && (Escape(d) + y)[1] == Escape(d)[1];
    }
    assert c == d;
    assert x == (Escape(c) + x)[|Escape(c)|..];
    assert y == (Escape(d) + y)[|Escape(d)|..];
  }

  /** Keys without underscores never share a file. */
  lemma {:induction false} FileNameInjective(a: string, b: string)
    requires '_' !in a && '_' !in b && FileName(a) == FileName(b)
    ensures a == b
  {
    assert FileName("") == "";
    if a == "" {
    } else {
      FileNameCons(a);
    }
    if b == "" {
    } else {
      FileNameCons(b);
    }
    if a != "" && b != "" {
      EscapesDiffer(a[0], b[0], FileName(a[1..]), FileName(b[1..]));
      FileNameInjective(a[1..], b[1..]);
      assert a == [a[0]] + a[1..] && b == [b[0]] + b[1..];
    }
  }

  predicate Plain(s: string) {
    '/' !in s && '\\' !in s && ':' !in s
  }

  /** Underscores matter: a key that spells an escape shares its file with the key it spells. */
  lemma UnderscoresCollide()
    ensures "_SLASH_" != "/" && FileName("_SLASH_") == FileName("/")
  {
    SlashOnly();
    PlainName(SLASH);
  }

  /** Nor does it help that no escape is spelled out: only the seam between two keys' parts has to. */
  lemma SeamsCollide(p: string, q: string)
    requires Plain(p) && Plain(q) && p + SLASH == SLASH + q
    ensures FileName(p + "/") == FileName("/" + q)
  {
    SlashOnly();
    PlainName(p);
    PlainName(q);
    FileNameConcat(p, "/");
    FileNameConcat("/", q);
  }
}
