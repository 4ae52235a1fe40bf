/** The two JavaScript string operations the plugin relies on: `indexOf` with a string
    pattern, and `replace` with a string pattern and an empty replacement, which removes
    the FIRST occurrence of the pattern wherever it is. Strings are sequences of UTF-16
    code units in JavaScript and sequences of `char` here. */
module JsString {

  /** `pat` occurs in `s` starting at position `i`. */
  predicate OccursAt(s: string, pat: string, i: int)
  {
    0 <= i && i + |pat| <= |s| && s[i..i + |pat|] == pat
  }

  /** `s.indexOf(pat, from)`: the least position at or after `from` where `pat` occurs,
      or -1 when there is none. An empty pattern is found at `from` itself. */
  function IndexOfFrom(s: string, pat: string, from: nat): (r: int)
    requires from <= |s|
    ensures r == -1 || (from <= r && OccursAt(s, pat, r))
    ensures forall j :: from <= j < (if r == -1 then |s| + 1 else r) ==> !OccursAt(s, pat, j)
    decreases |s| - from
  {
    if OccursAt(s, pat, from) then from
    else if from == |s| then -1
    else IndexOfFrom(s, pat, from + 1)
  }

  /** `s.indexOf(pat)`. */
  function IndexOf(s: string, pat: string): (r: int)
    ensures r == -1 <==> forall j :: 0 <= j <= |s| ==> !OccursAt(s, pat, j)
    ensures r != -1 ==> OccursAt(s, pat, r) && forall j :: 0 <= j < r ==> !OccursAt(s, pat, j)
  {
    IndexOfFrom(s, pat, 0)
  }

  /** `s.replace(pat, "")`: with a string pattern JavaScript replaces only the first
      occurrence found by `indexOf`; with an empty replacement that occurrence is dropped. */
  function RemoveFirst(s: string, pat: string): string
  {
    var i := IndexOf(s, pat);
    if i == -1 then s else s[..i] + s[i + |pat|..]
  }

  /** The tag marker the plugin strips: `s.replace("#", "")`. It drops the first `#` of
      the string, wherever that `#` stands, and keeps everything else in place. */
  function StripMarker(s: string): (r: string)
    ensures r == DropFirstHash(s)
  {
    ReplaceHashIsDropFirstHash(s);
    RemoveFirst(s, "#")
  }

  /** Reference definition, written independently of `indexOf`: walk the string and
      drop the first `#` met, keeping everything else in place. */
  function DropFirstHash(s: string): string
  {
    if s == [] then []
    else if s[0] == '#' then s[1..]
    else [s[0]] + DropFirstHash(s[1..])
  }

  /** A one-character pattern occurs exactly where that character stands. */
  lemma OccursAtChar(s: string, c: char, i: int)
    ensures OccursAt(s, [c], i) <==> 0 <= i < |s| && s[i] == c
  {
  }

  /** A character is found at the end of a prefix that does not contain it. */
  lemma IndexOfAfterPrefix(prefix: string, c: char, tail: string)
    requires c !in prefix && tail != [] && tail[0] == c
    ensures IndexOf(prefix + tail, [c]) == |prefix|
  {
    var s := prefix + tail;
    var q := IndexOf(s, [c]);
    OccursAtChar(s, c, |prefix|);
    OccursAtChar(s, c, q);
    forall j | 0 <= j < |prefix| ensures s[j] != c {
      assert s[j] == prefix[j];
    }
  }

  /** Position `i` holds the first `#` of `s`. */
  predicate FirstHashAt(s: string, i: int)
  {
    0 <= i < |s| && s[i] == '#' && '#' !in s[..i]
  }

  lemma {:induction false} DropFirstHashAt(s: string, i: int)
    requires FirstHashAt(s, i)
    ensures DropFirstHash(s) == s[..i] + s[i + 1..]
    decreases i
  {
    if i == 0 {
    } else {
      assert s[0] in s[..i];
      assert s[1..][..i - 1] == s[1..i];
      assert s[1..i] == s[..i][1..];
      DropFirstHashAt(s[1..], i - 1);
      assert s[1..][i..] == s[i + 1..];
      assert s[..i] == [s[0]] + s[1..][..i - 1];
    }
  }

  lemma {:induction false} DropFirstHashNone(s: string)
    requires '#' !in s
    ensures DropFirstHash(s) == s
  {
    if s != [] {
      assert s[0] in s;
      assert forall c :: c in s[1..] ==> c in s;
      DropFirstHashNone(s[1..]);
    }
  }

  /** A string with no `#` is left unchanged. */
  lemma StripMarkerNone(s: string)
    requires '#' !in s
    ensures StripMarker(s) == s
  {
    OccursAtChar(s, '#', IndexOf(s, "#"));
  }

  /** Only the first `#` is removed, wherever it stands; every character before and after
      it, including any later `#`, stays in order. */
  lemma StripMarkerAt(s: string, i: int)
    requires FirstHashAt(s, i)
    ensures StripMarker(s) == s[..i] + s[i + 1..]
  {
    var k := IndexOf(s, "#");
    OccursAtChar(s, '#', i);
    OccursAtChar(s, '#', k);
    forall j | 0 <= j < i ensures s[j] != '#' {
      assert s[..i][j] == s[j];
    }
    assert k == i;
  }

  /** `s.replace("#", "")` agrees with the reference definition on every string. */
  lemma ReplaceHashIsDropFirstHash(s: string)
    ensures RemoveFirst(s, "#") == DropFirstHash(s)
  {
    var k := IndexOf(s, "#");
    if k == -1 {
      if '#' in s {
        var j :| 0 <= j < |s| && s[j] == '#';
        OccursAtChar(s, '#', j);
      }
      DropFirstHashNone(s);
    } else {
      OccursAtChar(s, '#', k);
      forall j | 0 <= j < k ensures s[j] != '#' {
        OccursAtChar(s, '#', j);
      }
      assert '#' !in s[..k];
      DropFirstHashAt(s, k);
    }
  }

  /** A string that contains `#` loses exactly one character; any other string keeps
      its length. */
  lemma StripMarkerLength(s: string)
    ensures |StripMarker(s)| == if '#' in s then |s| - 1 else |s|
  {
    var k := IndexOf(s, "#");
    if k == -1 {
      if '#' in s {
        var j :| 0 <= j < |s| && s[j] == '#';
        OccursAtChar(s, '#', j);
      }
    } else {
      OccursAtChar(s, '#', k);
      assert s[k] in s;
    }
  }

  /** Exactly one `#` disappears from a string that has one; nothing else is lost or gained. */
  lemma StripMarkerMultiset(s: string)
    ensures multiset(StripMarker(s)) == if '#' in s then multiset(s) - multiset{'#'} else multiset(s)
  {
    var k := IndexOf(s, "#");
    if k == -1 {
      if '#' in s {
        var j :| 0 <= j < |s| && s[j] == '#';
        OccursAtChar(s, '#', j);
      }
    } else {
      OccursAtChar(s, '#', k);
      assert s[k] in s;
      assert s == s[..k] + [s[k]] + s[k + 1..];
      assert multiset(s) == multiset(s[..k]) + multiset{'#'} + multiset(s[k + 1..]);
    }
  }

  /** The marker is removed from anywhere in the string, not only from its start. */
  lemma StripMarkerInterior()
    ensures StripMarker("a#b#") == "ab#"
  {
    assert FirstHashAt("a#b#", 1);
    StripMarkerAt("a#b#", 1);
  }
}
