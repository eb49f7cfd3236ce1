/**
  The cleaning of a loaded item list (bingo_maker/ui/widgets.py,
  `BingoItemFileLoader._load_items_from_file`): every line is stripped of
  surrounding whitespace, blank lines and lines starting with `#` are
  dropped, duplicates are merged by a set, and the result is sorted.
  Reading the file is not modelled: the input is the list of its lines.
 */
module ItemCleaning {

  // ---------------------------------------------------------------------------
  // str.strip()
  // ---------------------------------------------------------------------------

  /** The characters Python's `str.isspace()` accepts, which `str.strip()` removes. */
  predicate IsSpace(c: char)
  {
    || ('\U{9}' <= c <= '\U{D}')
    || ('\U{1C}' <= c <= '\U{20}')
    || c == '\U{85}' || c == '\U{A0}' || c == '\U{1680}'
    || ('\U{2000}' <= c <= '\U{200A}')
    || c == '\U{2028}' || c == '\U{2029}' || c == '\U{202F}' || c == '\U{205F}' || c == '\U{3000}'
  }

  /** Number of whitespace characters at the front of `s`. */
  function Lead(s: string): (n: nat)
    ensures n <= |s|
    ensures forall i | 0 <= i < n :: IsSpace(s[i])
    ensures n == |s| || !IsSpace(s[n])
  {
    if s != [] && IsSpace(s[0]) then 1 + Lead(s[1..]) else 0
  }

  /** Number of whitespace characters at the back of `s`. */
  function Trail(s: string): (n: nat)
    ensures n <= |s|
    ensures forall i | |s| - n <= i < |s| :: IsSpace(s[i])
    ensures n == |s| || !IsSpace(s[|s| - n - 1])
  {
    if s != [] && IsSpace(s[|s| - 1]) then 1 + Trail(s[..|s| - 1]) else 0
  }

  /**
    `str.strip()`: the middle part of `s` left once the whitespace at both
    ends is removed; it neither starts nor ends with whitespace, and all
    that is removed is whitespace.
   */
  function Strip(s: string): (r: string)
    ensures r == [] || (!IsSpace(r[0]) && !IsSpace(r[|r| - 1]))
    ensures Lead(s) + |r| <= |s| && r == s[Lead(s)..Lead(s) + |r|]
    ensures forall i | 0 <= i < Lead(s) :: IsSpace(s[i])
    ensures forall i | Lead(s) + |r| <= i < |s| :: IsSpace(s[i])
  {
    StripBounds(s);
    StripTrailing(s);
    s[Lead(s)..|s| - Trail(s[Lead(s)..])]
  }

  /** The characters just inside the removed whitespace are not whitespace. */
  lemma StripBounds(s: string)
    ensures Lead(s) <= |s| - Trail(s[Lead(s)..])
    ensures var r := s[Lead(s)..|s| - Trail(s[Lead(s)..])];
      r == [] || (!IsSpace(r[0]) && !IsSpace(r[|r| - 1]))
  {
    var rest := s[Lead(s)..];
    var n := Trail(rest);
    if n < |rest| {
      assert s[|s| - n - 1] == rest[|rest| - n - 1];
    }
  }

  /** Everything after the strip is whitespace. */
  lemma StripTrailing(s: string)
    ensures forall i | |s| - Trail(s[Lead(s)..]) <= i < |s| :: IsSpace(s[i])
  {
    SpaceSuffixShift(s, Lead(s), Trail(s[Lead(s)..]));
  }

  /** Whitespace at the back of a suffix of `s` is whitespace at the back of `s`. */
  lemma SpaceSuffixShift(s: string, l: nat, n: nat)
    requires l <= |s| && n <= |s| - l
    requires forall j | |s[l..]| - n <= j < |s[l..]| :: IsSpace(s[l..][j])
    ensures forall i | |s| - n <= i < |s| :: IsSpace(s[i])
  {
    forall i | |s| - n <= i < |s|
      ensures IsSpace(s[i])
    {
      assert s[i] == s[l..][i - l];
    }
  }

  /** A text without surrounding whitespace is its own strip; in particular stripping twice changes nothing. */
  lemma StripFixed(s: string)
    requires s == [] || (!IsSpace(s[0]) && !IsSpace(s[|s| - 1]))
    ensures Strip(s) == s
  {
  }

  lemma StripIdempotent(s: string)
    ensures Strip(Strip(s)) == Strip(s)
  {
    StripFixed(Strip(s));
  }

  // ---------------------------------------------------------------------------
  // Python's string order
  // ---------------------------------------------------------------------------

  /** `a < b` on Python strings: lexicographic by code point, a proper prefix first. */
  predicate StrLess(a: string, b: string)
  {
    if a == [] then b != []
    else b != [] && (a[0] < b[0] || (a[0] == b[0] && StrLess(a[1..], b[1..])))
  }

  lemma {:induction false} StrLessIrreflexive(a: string)
    ensures !StrLess(a, a)
  {
    if a != [] {
      StrLessIrreflexive(a[1..]);
    }
  }

  lemma {:induction false} StrLessTransitive(a: string, b: string, c: string)
    requires StrLess(a, b) && StrLess(b, c)
    ensures StrLess(a, c)
  {
    if a != [] && a[0] == b[0] && b[0] == c[0] {
      StrLessTransitive(a[1..], b[1..], c[1..]);
    }
  }

  lemma {:induction false} StrLessTotal(a: string, b: string)
    requires a != b
    ensures StrLess(a, b) || StrLess(b, a)
  {
    if a != [] && b != [] && a[0] == b[0] {
      assert a[1..] != b[1..];
      StrLessTotal(a[1..], b[1..]);
    }
  }

  lemma StrLessAsymmetric(a: string, b: string)
    requires StrLess(a, b)
    ensures !StrLess(b, a)
  {
    if StrLess(b, a) {
      StrLessTransitive(a, b, a);
      StrLessIrreflexive(a);
    }
  }

  /** Every element strictly before the next: sorted and without repeats. */
  predicate StrictlySorted(s: seq<string>)
  {
    forall i, j | 0 <= i < j < |s| :: StrLess(s[i], s[j])
  }

  function Elements(s: seq<string>): set<string>
  {
    set x | x in s
  }

  // ---------------------------------------------------------------------------
  // The cleaning step
  // ---------------------------------------------------------------------------

  /** An item kept after stripping: not blank and not a `#` comment. */
  predicate Kept(item: string)
  {
    item != [] && item[0] != '#'
  }

  /** `(line.strip() for line in lines)`. */
  function StripLines(lines: seq<string>): seq<string>
  {
    seq(|lines|, i requires 0 <= i < |lines| => Strip(lines[i]))
  }

  /** `{item for item in items if item and not item.startswith('#')}`. */
  function KeptSet(items: seq<string>): set<string>
  {
    set x | x in items && Kept(x)
  }

  /** Adds `x` to a strictly sorted list at its place, unless it is already there. */
  function Insert(s: seq<string>, x: string): (r: seq<string>)
    requires StrictlySorted(s)
    ensures StrictlySorted(r)
    ensures Elements(r) == Elements(s) + {x}
  {
    if s == [] then [x]
    else if x == s[0] then s
    else if StrLess(x, s[0]) then
      assert forall k | 0 <= k < |s| :: StrLess(x, s[k]) by {
        forall k | 0 < k < |s| ensures StrLess(x, s[k]) {
          StrLessTransitive(x, s[0], s[k]);
        }
      }
      [x] + s
    else
      StrLessTotal(x, s[0]);
      var rest := Insert(s[1..], x);
      assert Elements(s) == {s[0]} + Elements(s[1..]) by {
        assert s == [s[0]] + s[1..];
      }
      assert forall k | 0 <= k < |rest| :: StrLess(s[0], rest[k]) by {
        forall k | 0 <= k < |rest| ensures StrLess(s[0], rest[k]) {
          assert rest[k] in Elements(rest);
          if rest[k] != x {
            var j :| 1 <= j < |s| && s[j] == rest[k];
          }
        }
      }
      assert Elements([s[0]] + rest) == {s[0]} + Elements(rest);
      [s[0]] + rest
  }

  /** `sorted` of the kept items: built by inserting the items one by one. */
  function SortKept(items: seq<string>): (r: seq<string>)
    ensures StrictlySorted(r)
    ensures Elements(r) == KeptSet(items)
  {
    if items == [] then []
    else
      var init := items[..|items| - 1];
      var last := items[|items| - 1];
      KeptSetStep(items);
      if Kept(last) then Insert(SortKept(init), last) else SortKept(init)
  }

  /** The kept set of a list is that of all but its last item, plus the last item if kept. */
  lemma KeptSetStep(items: seq<string>)
    requires items != []
    ensures KeptSet(items)
         == KeptSet(items[..|items| - 1]) + (if Kept(items[|items| - 1]) then {items[|items| - 1]} else {})
  {
    assert items == items[..|items| - 1] + [items[|items| - 1]];
  }

  /**
    `_load_items_from_file` after reading: the cleaned items, strictly
    sorted (so free of duplicates), made exactly of the kept stripped
    lines; no entry is blank or a comment, and each is its own strip.
   */
  function CleanItems(lines: seq<string>): (r: seq<string>)
    ensures StrictlySorted(r)
    ensures Elements(r) == KeptSet(StripLines(lines))
    ensures forall k | 0 <= k < |r| :: Kept(r[k]) && Strip(r[k]) == r[k]
  {
    var items := StripLines(lines);
    var r := SortKept(items);
    assert forall k | 0 <= k < |r| :: Kept(r[k]) && Strip(r[k]) == r[k] by {
      forall k | 0 <= k < |r| ensures Kept(r[k]) && Strip(r[k]) == r[k] {
        assert r[k] in Elements(r);
        var i :| 0 <= i < |items| && items[i] == r[k];
        StripIdempotent(lines[i]);
      }
    }
    r
  }

  /** A line is listed exactly when its stripped text is kept. */
  lemma LineListed(lines: seq<string>, i: int)
    requires 0 <= i < |lines|
    ensures Strip(lines[i]) in CleanItems(lines) <==> Kept(Strip(lines[i]))
  {
    var r := CleanItems(lines);
    assert StripLines(lines)[i] == Strip(lines[i]);
    if Strip(lines[i]) in r {
      assert Strip(lines[i]) in Elements(r);
    }
    if Kept(Strip(lines[i])) {
      assert Strip(lines[i]) in KeptSet(StripLines(lines));
      assert Strip(lines[i]) in Elements(r);
    }
  }

  /**
    A finite set of strings has exactly one strictly sorted listing, so the
    cleaned list is the one `sorted` produces for the cleaned set.
   */
  lemma {:induction false} SortedListingUnique(a: seq<string>, b: seq<string>)
    requires StrictlySorted(a) && StrictlySorted(b)
    requires Elements(a) == Elements(b)
    ensures a == b
  {
    ElementsEmpty(a);
    ElementsEmpty(b);
    if a != [] && b != [] {
      assert a[0] == b[0] by {
        if a[0] != b[0] {
          assert a[0] in Elements(b) && b[0] in Elements(a);
          var i :| 0 <= i < |b| && b[i] == a[0];
          var j :| 0 <= j < |a| && a[j] == b[0];
          assert i > 0 && j > 0;
          StrLessAsymmetric(b[0], a[0]);
        }
      }
      assert Elements(a[1..]) == Elements(b[1..]) by {
        forall x | x in a[1..] ensures x in b[1..] {
          var i :| 1 <= i < |a| && a[i] == x;
          assert x in Elements(b);
          var j :| 0 <= j < |b| && b[j] == x;
          if j == 0 {
            StrLessIrreflexive(a[0]);
          }
        }
        forall x | x in b[1..] ensures x in a[1..] {
          var j :| 1 <= j < |b| && b[j] == x;
          assert x in Elements(a);
          var i :| 0 <= i < |a| && a[i] == x;
          if i == 0 {
            StrLessIrreflexive(b[0]);
          }
        }
      }
      SortedListingUnique(a[1..], b[1..]);
      assert a == [a[0]] + a[1..] && b == [b[0]] + b[1..];
    }
  }

  lemma ElementsEmpty(s: seq<string>)
    ensures Elements(s) == {} <==> s == []
  {
    if s != [] {
      assert s[0] in Elements(s);
    }
  }
}
