/** Python string operations on text, with ASCII case folding and ASCII white space. */
module Text {
  import opened Wrappers

  /** `\s` and `str.isspace`: tab to carriage return, the four separators 1C-1F, and the space. */
  predicate IsSpace(c: char) {
    c == ' ' || '\t' <= c <= '\r' || '\U{1c}' <= c <= '\U{1f}'
  }

  predicate IsLineBreak(c: char) {
    c == '\n' || c == '\r'
  }

  function Lower(c: char): char {
    if 'A' <= c <= 'Z' then (c as int + 32) as char else c
  }

  /** `str.lower` */
  function LowerAll(s: string): string {
    seq(|s|, i requires 0 <= i < |s| => Lower(s[i]))
  }

  predicate Blank(s: string) {
    forall k :: 0 <= k < |s| ==> IsSpace(s[k])
  }

  /** `part in s` */
  predicate Contains(s: string, part: string) {
    exists k: nat :: k <= |s| && part <= s[k..]
  }

  /** Where a greedy `\s*` that starts at `i` stops. */
  function SkipSpace(s: string, i: nat): (r: nat)
    requires i <= |s|
    ensures i <= r <= |s|
    decreases |s| - i
  {
    if i < |s| && IsSpace(s[i]) then SkipSpace(s, i + 1) else i
  }

  /** The stop is the first index from `i` on that holds no white space. */
  lemma {:induction false} SkipSpaceStops(s: string, i: nat)
    requires i <= |s|
    ensures forall k :: i <= k < SkipSpace(s, i) ==> IsSpace(s[k])
    ensures SkipSpace(s, i) < |s| ==> !IsSpace(s[SkipSpace(s, i)])
    decreases |s| - i
  {
    if i < |s| && IsSpace(s[i]) {
      SkipSpaceStops(s, i + 1);
    }
  }

  lemma {:induction false} SkipSpaceIs(s: string, i: nat, r: nat)
    requires i <= r <= |s| && (r < |s| ==> !IsSpace(s[r]))
    requires forall k :: i <= k < r ==> IsSpace(s[k])
    ensures SkipSpace(s, i) == r
    decreases r - i
  {
    if i < r {
      SkipSpaceIs(s, i + 1, r);
    }
  }

  /** The end of the text `s[lo..]` once trailing white space is dropped. */
  function TrimEnd(s: string, lo: nat, hi: nat): (r: nat)
    requires lo <= hi <= |s|
    ensures lo <= r <= hi
    ensures forall k :: r <= k < hi ==> IsSpace(s[k])
    ensures lo < r ==> !IsSpace(s[r - 1])
    decreases hi
  {
    if lo < hi && IsSpace(s[hi - 1]) then TrimEnd(s, lo, hi - 1) else hi
  }

  /** `str.lstrip` */
  function LStrip(s: string): (r: string)
    ensures |r| <= |s| && r == s[|s| - |r|..]
  {
    s[SkipSpace(s, 0)..]
  }

  /** `str.strip` */
  function Strip(s: string): string {
    var a := SkipSpace(s, 0);
    s[a..TrimEnd(s, a, |s|)]
  }

  lemma StripBlank(s: string)
    ensures Blank(s) <==> Strip(s) == ""
  {
    SkipSpaceStops(s, 0);
  }

  /** Stripping a text that neither starts nor ends with white space changes nothing. */
  lemma StripTrimmed(s: string)
    requires s != "" ==> !IsSpace(s[0]) && !IsSpace(s[|s| - 1])
    ensures Strip(s) == s
  {
  }

  lemma StripIdempotent(s: string)
    ensures Strip(Strip(s)) == Strip(s)
  {
    SkipSpaceStops(s, 0);
    StripTrimmed(Strip(s));
  }

  /** The characters of `s` that are not white space, in order. */
  function NonSpace(s: string): (r: string) {
    if s == "" then "" else (if IsSpace(s[0]) then "" else [s[0]]) + NonSpace(s[1..])
  }

  lemma NonSpaceNext(s: string)
    requires s != ""
    ensures NonSpace(s) == (if IsSpace(s[0]) then "" else [s[0]]) + NonSpace(s[1..])
  {
  }

  lemma {:induction false} NonSpaceConcat(a: string, b: string)
    ensures NonSpace(a + b) == NonSpace(a) + NonSpace(b)
  {
    if a == "" {
      assert a + b == b;
    } else {
      hide NonSpace, IsSpace;
      NonSpaceNext(a);
      NonSpaceNext(a + b);
      NonSpaceConcat(a[1..], b);
      assert (a + b)[1..] == a[1..] + b;
      ConcatAssociates(if IsSpace(a[0]) then "" else [a[0]], NonSpace(a[1..]), NonSpace(b));
    }
  }

  lemma {:induction false} NonSpaceBlank(s: string)
    requires Blank(s)
    ensures NonSpace(s) == ""
  {
    if s != "" {
      NonSpaceBlank(s[1..]);
    }
  }

  /** `str(n)` */
  function Digits(n: nat): string {
    if n < 10 then ['0' + n as char] else Digits(n / 10) + ['0' + (n % 10) as char]
  }

  /** The concatenation of all pieces, `"".join(pieces)`. */
  function Join(pieces: seq<string>): string {
    if pieces == [] then "" else pieces[0] + Join(pieces[1..])
  }

  lemma JoinNext(pieces: seq<string>)
    requires pieces != []
    ensures Join(pieces) == pieces[0] + Join(pieces[1..])
  {
  }

  lemma {:induction false} JoinConcat(a: seq<string>, b: seq<string>)
    ensures Join(a + b) == Join(a) + Join(b)
  {
    if a == [] {
      assert a + b == b;
    } else {
      hide Join;
      JoinNext(a);
      JoinNext(a + b);
      JoinConcat(a[1..], b);
      assert (a + b)[1..] == a[1..] + b;
      ConcatAssociates(a[0], Join(a[1..]), Join(b));
    }
  }
}
