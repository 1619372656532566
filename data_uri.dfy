/**
  The data-URI strip of the upload handler: `s.replace(/^data:.+;base64,/, '')`.
  Without the `s` flag, `.` matches any character except a line terminator, and
  `.+` is greedy, so the removed prefix is the LONGEST one of the form
  `data:` + one or more non-terminators + `;base64,`.
 */
module DataUri {
  import opened Types

  const Scheme := "data:"
  const Marker := ";base64,"

  /** The characters `.` does not match in a JavaScript regular expression. */
  predicate IsLineTerminator(c: char)
  {
    c == '\n' || c == '\r' || c == '\U{2028}' || c == '\U{2029}'
  }

  predicate NoTerminator(s: string, lo: nat, hi: nat)
    requires lo <= hi <= |s|
  {
    forall k :: lo <= k < hi ==> !IsLineTerminator(s[k])
  }

  /** `s[..n]` is matched by `^data:.+;base64,`. */
  predicate PrefixMatch(s: string, n: nat)
  {
    && 14 <= n <= |s|
    && s[..5] == Scheme
    && s[n - 8..n] == Marker
    && NoTerminator(s, 5, n - 8)
  }

  /** Tries the marker at `j`, `j - 1`, ..., 6 (the first place `.+` lets it start)
      and returns the end of the first match found, that is, the largest. */
  function LastMatchFrom(s: string, j: int): (r: Option<nat>)
    requires 5 <= |s| && s[..5] == Scheme
    requires j + 8 <= |s|
    ensures r.Some? ==> PrefixMatch(s, r.value) && r.value <= j + 8
    ensures forall n: nat :: PrefixMatch(s, n) && n <= j + 8 ==> r.Some? && n <= r.value
    decreases j
  {
    if j < 6 then None
    else if s[j..j + 8] == Marker && NoTerminator(s, 5, j) then Some(j + 8)
    else LastMatchFrom(s, j - 1)
  }

  /** The end of the greedy match of `^data:.+;base64,` in `s`, if there is one. */
  function GreedyMatch(s: string): (r: Option<nat>)
    ensures r.Some? ==> PrefixMatch(s, r.value)
    ensures forall n: nat :: PrefixMatch(s, n) ==> r.Some? && n <= r.value
  {
    if 14 <= |s| && s[..5] == Scheme then LastMatchFrom(s, |s| - 8) else None
  }

  /** Removes the greedy data-URI prefix; a string without one is returned unchanged. */
  function StripDataUri(s: string): (r: string)
    ensures |r| <= |s| && r == s[|s| - |r|..]
    ensures |r| < |s| ==> PrefixMatch(s, |s| - |r|)
    ensures forall n: nat :: PrefixMatch(s, n) ==> n <= |s| - |r|
    ensures (forall n: nat :: !PrefixMatch(s, n)) ==> r == s
  {
    match GreedyMatch(s)
    case None => s
    case Some(n) => s[n..]
  }

  /** The greedy match of the PNG example ends right after `;base64,`. */
  lemma PngMatchEnd()
    ensures LastMatchFrom("data:image/png;base64,AAAA", 18) == Some(22)
  {
    var s := "data:image/png;base64,AAAA";
    assert |s| == 26 && s[..5] == Scheme;
    assert s[14..22] == Marker;
    assert NoTerminator(s, 5, 14);
    assert LastMatchFrom(s, 14) == Some(22);
    assert s[15..23][0] != ';' && s[16..24][0] != ';' && s[17..25][0] != ';' && s[18..26][0] != ';';
  }

  /** The example of a PNG data URI: only the payload remains. */
  lemma StripPngExample()
    ensures StripDataUri("data:image/png;base64,AAAA") == "AAAA"
  {
    var s := "data:image/png;base64,AAAA";
    assert |s| == 26 && s[..5] == Scheme;
    PngMatchEnd();
    assert GreedyMatch(s) == Some(22);
    assert s[22..] == "AAAA";
  }

  /** With two markers the match runs through the second one. */
  lemma GreedyMatchEnd()
    ensures LastMatchFrom("data:a;base64,b;base64,c", 16) == Some(23)
  {
    var s := "data:a;base64,b;base64,c";
    assert |s| == 24 && s[..5] == Scheme;
    assert s[15..23] == Marker;
    assert NoTerminator(s, 5, 15);
    assert LastMatchFrom(s, 15) == Some(23);
    assert s[16..24][0] != ';';
  }

  /** Greedy `.+`: the strip runs through the LAST `;base64,`. */
  lemma StripIsGreedy()
    ensures StripDataUri("data:a;base64,b;base64,c") == "c"
  {
    var s := "data:a;base64,b;base64,c";
    assert |s| == 24 && s[..5] == Scheme;
    GreedyMatchEnd();
    assert GreedyMatch(s) == Some(23);
    assert s[23..] == "c";
  }

  /** `.+` needs at least one character, so `data:;base64,` alone is not stripped. */
  lemma StripNeedsMediaType()
    ensures StripDataUri("data:;base64,AAAA") == "data:;base64,AAAA"
  {
    var s := "data:;base64,AAAA";
    assert |s| == 17 && s[..5] == Scheme;
    assert s[6..14][0] != ';' && s[7..15][0] != ';' && s[8..16][0] != ';' && s[9..17][0] != ';';
    assert LastMatchFrom(s, 9) == None;
  }

  /** `.` does not cross a line break: a newline before the marker stops the strip. */
  lemma StripStopsAtNewline()
    ensures StripDataUri("data:a\n;base64,x") == "data:a\n;base64,x"
  {
    var s := "data:a\n;base64,x";
    assert |s| == 16 && s[..5] == Scheme;
    assert s[6..14][0] != ';' && s[8..16][0] != ';';
    assert IsLineTerminator(s[6]) && !NoTerminator(s, 5, 7);
    assert LastMatchFrom(s, 8) == None;
  }
}
