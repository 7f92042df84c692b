/**
  The robots.txt route of src/pages/robots.txt/index.ts: a four-element array
  (a `User-agent` group with one `Allow` rule as in section 2.2 of RFC 9309, a
  literal newline, and the sitemaps.org `Sitemap:` record) joined with newlines.
  The sitemap URL arrives as its text.
 */
module Robots {

  /** JavaScript's `Array.prototype.join` over strings. */
  function Join(parts: seq<string>, sep: string): string
  {
    if |parts| == 0 then ""
    else if |parts| == 1 then parts[0]
    else parts[0] + sep + Join(parts[1..], sep)
  }

  /** The array that `getRobotsTxt` joins. */
  function Parts(sitemap: string): seq<string>
  {
    ["User-agent: *", "Allow: /", "\n", "Sitemap: " + sitemap]
  }

  lemma JoinFour(a: string, b: string, c: string, d: string, sep: string)
    ensures Join([a, b, c, d], sep) == a + sep + b + sep + c + sep + d
  {
    var parts := [a, b, c, d];
    assert parts[3..] == [d];
    assert parts[2..][1..] == parts[3..];
    assert parts[1..][1..] == parts[2..];
    assert Join(parts[3..], sep) == d;
    assert Join(parts[2..], sep) == c + sep + d;
    assert Join(parts[1..], sep) == b + sep + (c + sep + d);
    assert Join(parts, sep) == a + sep + (b + sep + (c + sep + d));
  }

  /** `getRobotsTxt`: the group, three newlines, then the sitemap record. */
  function RobotsTxt(sitemap: string): (body: string)
    ensures body == "User-agent: *\nAllow: /\n\n\nSitemap: " + sitemap
  {
    JoinFour("User-agent: *", "Allow: /", "\n", "Sitemap: " + sitemap, "\n");
    Join(Parts(sitemap), "\n")
  }

  /** Number of occurrences of `c` in `s`. */
  function Count(s: string, c: char): nat
  {
    if s == [] then 0 else (if s[0] == c then 1 else 0) + Count(s[1..], c)
  }

  /** `s` does not contain `c`. */
  predicate Free(s: string, c: char)
  {
    forall j :: 0 <= j < |s| ==> s[j] != c
  }

  /** Splits `s` at every `c`; there is one piece more than there are separators. */
  function Split(s: string, c: char): (pieces: seq<string>)
    ensures |pieces| == Count(s, c) + 1
    ensures forall i :: 0 <= i < |pieces| ==> Free(pieces[i], c)
  {
    if s == [] then [""]
    else
      var rest := Split(s[1..], c);
      if s[0] == c then [""] + rest else [[s[0]] + rest[0]] + rest[1..]
  }

  /** The body starts with the group and ends with the sitemap record, with no
      trailing newline, and exactly three newlines lie between `Allow: /` and
      `Sitemap: `. */
  lemma Shape(sitemap: string)
    ensures var body := RobotsTxt(sitemap);
      && |body| == 34 + |sitemap|
      && body[..22] == "User-agent: *\nAllow: /"
      && body[22..25] == "\n\n\n"
      && body[25..] == "Sitemap: " + sitemap
  {
  }

  lemma {:induction false} CountAppend(a: string, b: string, c: char)
    ensures Count(a + b, c) == Count(a, c) + Count(b, c)
  {
    if a == [] {
      assert a + b == b;
    } else {
      assert (a + b)[1..] == a[1..] + b;
      CountAppend(a[1..], b, c);
    }
  }

  lemma {:induction false} CountAbsent(s: string, c: char)
    requires Free(s, c)
    ensures Count(s, c) == 0
  {
    if s != [] {
      CountAbsent(s[1..], c);
    }
  }

  /** A group line, a rule line, two empty lines and a record line hold four
      separators beyond those of the record's value. */
  lemma CountFour(group: string, rule: string, record: string, url: string, c: char)
    requires Free(group, c)
    requires Free(rule, c)
    requires Free(record, c)
    ensures Count(group + [c] + rule + [c] + [c] + [c] + record + url, c) == 4 + Count(url, c)
  {
    CountAbsent(group, c);
    CountAbsent(rule, c);
    CountAbsent(record, c);
    var n := [c];
    assert Count(n, c) == 1;
    CountAppend(group, n, c);
    CountAppend(group + n, rule, c);
    CountAppend(group + n + rule, n, c);
    CountAppend(group + n + rule + n, n, c);
    CountAppend(group + n + rule + n + n, n, c);
    CountAppend(group + n + rule + n + n + n, record, c);
    CountAppend(group + n + rule + n + n + n + record, url, c);
  }

  /** The body holds four newlines plus those of the URL text. */
  lemma NewlineCount(sitemap: string)
    ensures Count(RobotsTxt(sitemap), '\n') == 4 + Count(sitemap, '\n')
    ensures Count(sitemap, '\n') == 0 ==> Count(RobotsTxt(sitemap), '\n') == 4
  {
    var group, rule, record := "User-agent: *", "Allow: /", "Sitemap: ";
    assert RobotsTxt(sitemap) == group + ['\n'] + rule + ['\n'] + ['\n'] + ['\n'] + record + sitemap;
    CountFour(group, rule, record, sitemap, '\n');
  }

  lemma {:induction false} SplitAfterSeparator(a: string, b: string, c: char)
    requires Free(a, c)
    ensures Split(a + [c] + b, c) == [a] + Split(b, c)
  {
    if a == [] {
      assert a + [c] + b == [c] + b;
      assert ([c] + b)[1..] == b;
    } else {
      assert (a + [c] + b)[1..] == a[1..] + [c] + b;
      SplitAfterSeparator(a[1..], b, c);
      assert [a[0]] + a[1..] == a;
    }
  }

  lemma {:induction false} SplitNoSeparator(a: string, c: char)
    requires Free(a, c)
    ensures Split(a, c) == [a]
  {
    if a != [] {
      SplitNoSeparator(a[1..], c);
      assert [a[0]] + a[1..] == a;
    }
  }

  /** Joining pieces free of the separator and splitting again gives the pieces back. */
  lemma {:induction false} SplitJoin(parts: seq<string>, c: char)
    requires |parts| > 0
    requires forall i :: 0 <= i < |parts| ==> Free(parts[i], c)
    ensures Split(Join(parts, [c]), c) == parts
  {
    if |parts| == 1 {
      SplitNoSeparator(parts[0], c);
    } else {
      var rest := parts[1..];
      assert forall i :: 0 <= i < |rest| ==> Free(rest[i], c) by {
        forall i | 0 <= i < |rest| ensures Free(rest[i], c) {
          assert rest[i] == parts[i + 1];
        }
      }
      SplitJoin(rest, c);
      assert Join(parts, [c]) == parts[0] + [c] + Join(rest, [c]);
      SplitAfterSeparator(parts[0], Join(rest, [c]), c);
      assert [parts[0]] + rest == parts;
    }
  }

  /** Read line by line, a URL without newlines gives the group line, its rule,
      two empty lines and the sitemap record. */
  lemma Lines(sitemap: string)
    requires Free(sitemap, '\n')
    ensures Split(RobotsTxt(sitemap), '\n') == ["User-agent: *", "Allow: /", "", "", "Sitemap: " + sitemap]
  {
    var lines := ["User-agent: *", "Allow: /", "", "", "Sitemap: " + sitemap];
    var p := Parts(sitemap);
    assert Join(lines[4..], "\n") == p[3] == Join(p[3..], "\n");
    assert Join(lines[3..], "\n") == "" + "\n" + p[3];
    assert Join(lines[2..], "\n") == "" + "\n" + Join(lines[3..], "\n") == Join(p[2..], "\n");
    assert Join(lines[1..], "\n") == p[1] + "\n" + Join(p[2..], "\n") == Join(p[1..], "\n");
    assert Join(lines, "\n") == RobotsTxt(sitemap);
    forall i | 0 <= i < |lines|
      ensures Free(lines[i], '\n')
    {
      if i == 4 {
        forall j | 9 <= j < |lines[i]| ensures lines[i][j] != '\n' {
          assert lines[i][j] == sitemap[j - 9];
        }
      }
    }
    SplitJoin(lines, '\n');
  }
}
