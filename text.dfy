/**
 * String helpers shared by the chart formatters and the spreadsheet extractor:
 * whitespace trimming, ASCII upper-casing and joining with a separator.
 * Only ASCII whitespace is modelled.
 */
module Text {

  /** The ASCII characters matched by `\s` and removed by `String.prototype.trim` in JavaScript. */
  const JsWhitespace: set<char> := {' ', '\t', '\n', '\U{000B}', '\U{000C}', '\r'}

  /** The ASCII characters removed by Python's `str.strip()`: JavaScript's set plus the separators 0x1C-0x1F. */
  const PyWhitespace: set<char> := JsWhitespace + {'\U{001C}', '\U{001D}', '\U{001E}', '\U{001F}'}

  /** Removes the longest prefix of characters from `ws`. */
  function TrimStart(s: string, ws: set<char>): (r: string)
    ensures |r| <= |s| && r == s[|s| - |r|..]
    ensures forall k :: 0 <= k < |s| - |r| ==> s[k] in ws
    ensures r == [] || r[0] !in ws
  {
    if s != [] && s[0] in ws then TrimStart(s[1..], ws) else s
  }

  /** Removes the longest suffix of characters from `ws`. */
  function TrimEnd(s: string, ws: set<char>): (r: string)
    ensures |r| <= |s| && r == s[..|r|]
    ensures forall k :: |r| <= k < |s| ==> s[k] in ws
    ensures r == [] || r[|r| - 1] !in ws
  {
    if s != [] && s[|s| - 1] in ws then TrimEnd(s[..|s| - 1], ws) else s
  }

  /** Neither end of `s` is a character from `ws`. */
  predicate IsTrimmed(s: string, ws: set<char>)
  {
    s == [] || (s[0] !in ws && s[|s| - 1] !in ws)
  }

  /** Removes leading and trailing characters from `ws`. */
  function Trim(s: string, ws: set<char>): (r: string)
    ensures IsTrimmed(r, ws)
    ensures |r| <= |s|
  {
    var t := TrimStart(s, ws);
    var r := TrimEnd(t, ws);
    assert r == [] || r[0] == t[0];
    r
  }

  /** The trim of `s` is the slice of `s` between a leading and a trailing run
      of characters from `ws`. */
  lemma TrimIsSlice(s: string, ws: set<char>)
    ensures var r := Trim(s, ws);
      var lead := |s| - |TrimStart(s, ws)|;
      && lead + |r| <= |s|
      && r == s[lead..lead + |r|]
      && (forall k :: 0 <= k < lead ==> s[k] in ws)
      && (forall k :: lead + |r| <= k < |s| ==> s[k] in ws)
  {
    var t := TrimStart(s, ws);
    var r := TrimEnd(t, ws);
    var lead := |s| - |t|;
    assert t == s[lead..];
    assert r == t[..|r|];
    forall k | lead + |r| <= k < |s| ensures s[k] in ws {
      assert s[k] == t[k - lead];
    }
  }

  /** A string with no removable character at either end is its own trim. */
  lemma TrimOfTrimmed(s: string, ws: set<char>)
    requires IsTrimmed(s, ws)
    ensures Trim(s, ws) == s
  {
  }

  /** Trimming twice is trimming once. */
  lemma {:induction false} TrimIdempotent(s: string, ws: set<char>)
    ensures Trim(Trim(s, ws), ws) == Trim(s, ws)
  {
    TrimOfTrimmed(Trim(s, ws), ws);
  }

  /** Removing a leading run first does not change the trim. */
  lemma TrimAfterTrimStart(s: string, ws: set<char>)
    ensures Trim(TrimStart(s, ws), ws) == Trim(s, ws)
  {
    var t := TrimStart(s, ws);
    assert TrimStart(t, ws) == t;
  }

  /** Upper-cases one ASCII letter; other characters are unchanged. */
  function AsciiUpper(c: char): char
  {
    if 'a' <= c <= 'z' then (c as int - 32) as char else c
  }

  /** Upper-cases the ASCII letters of `s` (`str.upper()` restricted to ASCII). */
  function Upper(s: string): string
  {
    if s == [] then [] else [AsciiUpper(s[0])] + Upper(s[1..])
  }

  /** Upper-casing keeps the length. */
  lemma {:induction false} UpperLength(s: string)
    ensures |Upper(s)| == |s|
  {
    if s != [] {
      UpperLength(s[1..]);
    }
  }

  /** Upper-casing works character by character. */
  lemma {:induction false} UpperAt(s: string, i: nat)
    requires i < |s|
    ensures i < |Upper(s)| && Upper(s)[i] == AsciiUpper(s[i])
  {
    UpperLength(s);
    if i > 0 {
      UpperAt(s[1..], i - 1);
    }
  }

  /** Python's `sep.join(parts)`. */
  function Join(parts: seq<string>, sep: string): (r: string)
    ensures parts != [] ==> parts[0] <= r
  {
    if parts == [] then ""
    else if |parts| == 1 then parts[0]
    else parts[0] + sep + Join(parts[1..], sep)
  }

  /** Joining one part more appends the separator and that part, so
      `Join([p1, ..., pn], sep) == p1 + sep + ... + sep + pn`. */
  lemma {:induction false} JoinAppend(parts: seq<string>, p: string, sep: string)
    requires parts != []
    ensures Join([p], sep) == p
    ensures Join(parts + [p], sep) == Join(parts, sep) + sep + p
  {
    if |parts| > 1 {
      assert (parts + [p])[1..] == parts[1..] + [p];
      JoinAppend(parts[1..], p, sep);
    }
  }
}
