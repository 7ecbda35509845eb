/** Link detection: `URL_REGEX.search(content)` with
    `URL_REGEX = re.compile(r"(https?://|www\.)\S+", re.IGNORECASE)`
    (bot.py:45, 122). */
module Links {
  import opened Wrappers
  import opened Text

  /** Does `c` match the lower-case pattern character `p` when case is
      ignored? Letters match either case; Python's case-insensitive matching
      also lets U+017F (long s) match `s`. Other pattern characters
      (`:`, `/`, `.`) match only themselves. */
  predicate FoldsTo(c: char, p: char) {
    LowerChar(c) == p || (p == 's' && c == '\U{17F}')
  }

  /** `s[i..]` starts with the pattern `p`, case ignored. */
  predicate PrefixAt(s: string, i: nat, p: string)
    ensures PrefixAt(s, i, p) ==> i + |p| <= |s|
    ensures PrefixAt(s, i, p) && |p| > 0 ==> FoldsTo(s[i], p[0])
  {
    i + |p| <= |s| && forall k :: 0 <= k < |p| ==> FoldsTo(s[i + k], p[k])
  }

  /** `p` at index `i`, followed by at least one non-whitespace character
      (`\S+` needs one and is satisfied by one). */
  predicate SchemeAt(s: string, i: nat, p: string) {
    PrefixAt(s, i, p) && i + |p| < |s| && !IsSpace(s[i + |p|])
  }

  /** The regular expression matches starting at index `i`: one of its
      alternatives `http://`, `https://` (the `s?`) or `www.` matches there. */
  predicate LinkAt(s: string, i: nat)
    ensures LinkAt(s, i) ==> i + 5 <= |s| && (LowerChar(s[i]) == 'h' || LowerChar(s[i]) == 'w')
  {
    SchemeAt(s, i, "http://") || SchemeAt(s, i, "https://") || SchemeAt(s, i, "www.")
  }

  /** The content holds a link somewhere. */
  ghost predicate HasLink(s: string)
    ensures HasLink(s) ==> |s| >= 5
  {
    exists i: nat :: LinkAt(s, i)
  }

  /** The scan of `re.search` from index `i`: the first index at or after `i`
      where the expression matches. */
  function SearchFrom(s: string, i: nat): (r: Option<nat>)
    requires i <= |s|
    ensures r.Some? ==> i <= r.value < |s| && LinkAt(s, r.value)
    ensures r.Some? ==> forall j: nat :: i <= j < r.value ==> !LinkAt(s, j)
    ensures r.None? ==> forall j: nat :: i <= j ==> !LinkAt(s, j)
    decreases |s| - i
  {
    if i == |s| then None
    else if LinkAt(s, i) then Some(i)
    else SearchFrom(s, i + 1)
  }

  /** `URL_REGEX.search(s)`: the start of the leftmost match, if any. */
  function Search(s: string): (r: Option<nat>)
    ensures r.Some? <==> HasLink(s)
    ensures r.Some? ==> LinkAt(s, r.value) && forall j: nat :: j < r.value ==> !LinkAt(s, j)
  {
    SearchFrom(s, 0)
  }

  // ---------------------------------------------------------------------------
  // Properties

  /** A scheme followed by a non-whitespace character is a link, wherever it
      stands in the content. */
  lemma SchemeThenNonSpaceIsLink(a: string, p: string, c: char, b: string)
    requires p == "http://" || p == "https://" || p == "www."
    requires !IsSpace(c)
    ensures HasLink(a + p + [c] + b)
  {
    var s := a + p + [c] + b;
    forall k | 0 <= k < |p| ensures FoldsTo(s[|a| + k], p[k]) {
      assert s[|a| + k] == p[k];
    }
    assert s[|a| + |p|] == c;
    assert LinkAt(s, |a|);
  }

  /** Text around a link never hides it. */
  lemma LinkInContext(a: string, s: string, b: string)
    requires HasLink(s)
    ensures HasLink(a + s + b)
  {
    var i: nat :| LinkAt(s, i);
    var t := a + s + b;
    forall k | 0 <= k < |s| ensures t[|a| + k] == s[k] {
    }
    assert LinkAt(t, |a| + i);
  }

  /** What a match at index `i` looks like: `w` then `.` at offset 3, or `h`
      then `:` at offset 4 or 5, then a non-whitespace character. */
  lemma LinkShape(s: string, i: nat)
    requires LinkAt(s, i)
    ensures || (LowerChar(s[i]) == 'w' && i + 4 < |s| && s[i + 3] == '.' && !IsSpace(s[i + 4]))
            || (LowerChar(s[i]) == 'h' && i + 7 < |s| && s[i + 4] == ':' && !IsSpace(s[i + 7]))
            || (LowerChar(s[i]) == 'h' && i + 8 < |s| && s[i + 5] == ':' && !IsSpace(s[i + 8]))
  {
    if SchemeAt(s, i, "www.") {
      assert FoldsTo(s[i], "www."[0]) && FoldsTo(s[i + 3], "www."[3]);
    } else if SchemeAt(s, i, "http://") {
      assert FoldsTo(s[i], "http://"[0]) && FoldsTo(s[i + 4], "http://"[4]);
    } else {
      assert FoldsTo(s[i], "https://"[0]) && FoldsTo(s[i + 5], "https://"[5]);
    }
  }

  /** Every alternative contains `:` or `.`, which match only themselves: text
      without either holds no link. */
  lemma NoLinkWithoutColonOrDot(s: string)
    requires ':' !in s && '.' !in s
    ensures !HasLink(s)
  {
    forall i: nat | LinkAt(s, i) ensures false {
      LinkShape(s, i);
    }
  }

  /** A scheme with nothing or whitespace after it is not a link. */
  lemma BareSchemeIsNotALink()
    ensures !HasLink("https://")
    ensures !HasLink("http://")
    ensures !HasLink("go https:// now")
  {
    forall i: nat | LinkAt("go https:// now", i) ensures false {
      LinkShape("go https:// now", i);
    }
    forall i: nat | LinkAt("https://", i) ensures false {
      LinkShape("https://", i);
    }
    forall i: nat | LinkAt("http://", i) ensures false {
      LinkShape("http://", i);
    }
  }

  /** Letter case does not matter: the content and its lower-case form hold a
      link at the same indices. */
  lemma LinkIgnoresCase(s: string)
    ensures forall i: nat :: LinkAt(s, i) <==> LinkAt(Lower(s), i)
    ensures HasLink(s) <==> HasLink(Lower(s))
  {
    var t := Lower(s);
    forall k | 0 <= k < |s| ensures SameClass(s[k], t[k]) {
      LowerKeepsMatch(s[k]);
    }
    forall i: nat ensures LinkAt(s, i) <==> LinkAt(t, i) {
      SchemeIgnoresCase(s, t, i, "http://");
      SchemeIgnoresCase(s, t, i, "https://");
      SchemeIgnoresCase(s, t, i, "www.");
    }
  }

  /** `a` and `b` match the same pattern characters and are both whitespace
      or both not. */
  predicate SameClass(a: char, b: char) {
    (forall p :: FoldsTo(a, p) <==> FoldsTo(b, p)) && (IsSpace(a) <==> IsSpace(b))
  }

  lemma SchemeIgnoresCase(s: string, t: string, i: nat, p: string)
    requires |s| == |t| && forall k :: 0 <= k < |s| ==> SameClass(s[k], t[k])
    ensures SchemeAt(s, i, p) <==> SchemeAt(t, i, p)
  {
    if i + |p| < |s| {
      assert SameClass(s[i + |p|], t[i + |p|]);
      forall k | 0 <= k < |p| ensures FoldsTo(s[i + k], p[k]) <==> FoldsTo(t[i + k], p[k]) {
        assert SameClass(s[i + k], t[i + k]);
      }
    }
  }

  lemma LowerKeepsMatch(c: char)
    ensures SameClass(c, LowerChar(c))
  {
  }
}
