/** The Python string operations the modelled services rely on. */
module Text {

  /** `str.isspace()` for one character: the code points Python classifies as white space. */
  predicate IsSpace(c: char) {
    var n := c as int;
    9 <= n <= 13 || 28 <= n <= 32 || n == 0x85 || n == 0xA0 || n == 0x1680 || 0x2000 <= n <= 0x200A ||
    n == 0x2028 || n == 0x2029 || n == 0x202F || n == 0x205F || n == 0x3000
  }

  /** The same, one by one: tab to carriage return, the four separators, the space, and the wider ones. */
  lemma {:induction false} WhiteSpaceIs(c: char)
    ensures IsSpace(c) <==> c as int in {9, 10, 11, 12, 13, 28, 29, 30, 31, 32, 133, 160, 5760, 8192, 8193, 8194, 8195, 8196, 8197,
                                         8198, 8199, 8200, 8201, 8202, 8232, 8233, 8239, 8287, 12288}
  {
  }

  /** Only white space in `s[lo..hi]`. */
  predicate AllSpace(s: string, lo: nat, hi: nat)
    requires hi <= |s|
  {
    forall i | lo <= i < hi :: IsSpace(s[i])
  }

  /** `not s.strip()` */
  predicate Blank(s: string) {
    AllSpace(s, 0, |s|)
  }

  /** Where the run of white space that ends at `j` begins, looking back no further than `lo`. */
  function SpaceStart(s: string, lo: nat, j: nat): (k: nat)
    requires lo <= j <= |s|
    ensures lo <= k <= j
    decreases j
  {
    if j > lo && IsSpace(s[j - 1]) then SpaceStart(s, lo, j - 1) else j
  }

  lemma {:induction false} SpaceStartFacts(s: string, lo: nat, j: nat)
    requires lo <= j <= |s|
    ensures var k := SpaceStart(s, lo, j); AllSpace(s, k, j) && (k > lo ==> !IsSpace(s[k - 1]))
    decreases j
  {
    if j > lo && IsSpace(s[j - 1]) {
      SpaceStartFacts(s, lo, j - 1);
    }
  }

  /** Those two facts pin the start down. */
  lemma {:induction false} SpaceStartIs(s: string, lo: nat, j: nat, k: nat)
    requires lo <= k <= j <= |s| && AllSpace(s, k, j)
    requires k > lo ==> !IsSpace(s[k - 1])
    ensures SpaceStart(s, lo, j) == k
    decreases j
  {
    if k < j {
      SpaceStartIs(s, lo, j - 1, k);
    }
  }

  /** Where the run of white space that starts at `i` ends. */
  function SpaceEnd(s: string, i: nat): (k: nat)
    requires i <= |s|
    ensures i <= k <= |s|
    decreases |s| - i
  {
    if i < |s| && IsSpace(s[i]) then SpaceEnd(s, i + 1) else i
  }

  lemma {:induction false} SpaceEndFacts(s: string, i: nat)
    requires i <= |s|
    ensures var k := SpaceEnd(s, i); AllSpace(s, i, k) && (k < |s| ==> !IsSpace(s[k]))
    decreases |s| - i
  {
    if i < |s| && IsSpace(s[i]) {
      SpaceEndFacts(s, i + 1);
    }
  }

  /** `s.rstrip()` */
  function RStrip(s: string): string {
    s[..SpaceStart(s, 0, |s|)]
  }

  /** `s.strip()` */
  function Strip(s: string): string {
    var lo := SpaceEnd(s, 0);
    s[lo..SpaceStart(s, lo, |s|)]
  }

  /** `"".join(parts)` */
  function Concat(parts: seq<string>): string {
    if parts == [] then "" else parts[0] + Concat(parts[1..])
  }

  lemma {:induction false} ConcatAppend(a: seq<string>, b: seq<string>)
    ensures Concat(a + b) == Concat(a) + Concat(b)
  {
    if a == [] {
      assert a + b == b;
    } else {
      assert (a + b)[1..] == a[1..] + b;
      ConcatAppend(a[1..], b);
    }
  }

  lemma {:induction false} ConcatSnoc(a: seq<string>, s: string)
    ensures Concat(a + [s]) == Concat(a) + s
  {
    ConcatAppend(a, [s]);
    assert [s][1..] == [];
  }
}
