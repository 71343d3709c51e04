/** Draw commands recorded by a scope, and the two steps of the flush that act on
    them as values: the stable sort by ascending depth and the concatenation of
    their floats into one vertex stream. */
module Commands {
  import opened Vertex

  /** One recorded draw: its interleaved vertex floats and the depth that was
      current when it was recorded. */
  datatype Command = Command(verts: seq<real>, depth: real)

  /** The command `draw_rect(x, y, width, height)` records under paint state
      (`color`, `depth`). */
  function RectCommand(x: real, y: real, width: real, height: real, color: Color, depth: real): (cmd: Command)
    ensures |cmd.verts| == RECT_FLOATS
  {
    Command(RectVerts(x, y, width, height, color), depth)
  }

  /** Every command is one rectangle's worth of floats. */
  ghost predicate AllRects(s: seq<Command>)
  {
    forall i :: 0 <= i < |s| ==> |s[i].verts| == RECT_FLOATS
  }

  /** Depths never decrease along `s`. */
  ghost predicate Sorted(s: seq<Command>)
  {
    forall i, j :: 0 <= i < j < |s| ==> s[i].depth <= s[j].depth
  }

  /** The commands of `s` whose depth is `d`, in their order in `s`. A sort is
      stable exactly when it keeps this subsequence for every depth. */
  function Filter(s: seq<Command>, d: real): seq<Command>
  {
    if s == [] then []
    else Filter(s[..|s| - 1], d) + (if s[|s| - 1].depth == d then [s[|s| - 1]] else [])
  }

  /** Places `c` after every command of `t` whose depth is not greater than its own. */
  function Insert(t: seq<Command>, c: Command): (r: seq<Command>)
    ensures |r| == |t| + 1
  {
    if t == [] then [c]
    else if t[|t| - 1].depth <= c.depth then t + [c]
    else Insert(t[..|t| - 1], c) + [t[|t| - 1]]
  }

  /** The result of `commands.sort_by(|a, b| a.depth.partial_cmp(&b.depth).unwrap())`:
      a stable sort by ascending depth (here an insertion sort; by
      StableSortIsSortByDepth every stable sort gives this same sequence). */
  function SortByDepth(s: seq<Command>): (r: seq<Command>)
    ensures |r| == |s|
  {
    if s == [] then [] else Insert(SortByDepth(s[..|s| - 1]), s[|s| - 1])
  }

  /** The floats of all commands of `s`, in order: the vertex stream. */
  function Concat(s: seq<Command>): seq<real>
  {
    if s == [] then [] else Concat(s[..|s| - 1]) + s[|s| - 1].verts
  }

  lemma {:induction false} FilterMembers(s: seq<Command>, d: real, x: Command)
    ensures x in Filter(s, d) <==> x in s && x.depth == d
  {
    if s != [] {
      FilterMembers(s[..|s| - 1], d, x);
      assert s == s[..|s| - 1] + [s[|s| - 1]];
    }
  }

  /** Filtering a sequence extended by one command. */
  lemma FilterSnoc(t: seq<Command>, c: Command, d: real)
    ensures Filter(t + [c], d) == Filter(t, d) + (if c.depth == d then [c] else [])
  {
    assert (t + [c])[..|t|] == t;
  }

  /** Concatenating a sequence extended by one command. */
  lemma ConcatSnoc(t: seq<Command>, c: Command)
    ensures Concat(t + [c]) == Concat(t) + c.verts
  {
    assert (t + [c])[..|t|] == t;
  }

  /** Inserting `c` adds `c` and nothing else. */
  lemma {:induction false} InsertMultiset(t: seq<Command>, c: Command)
    ensures multiset(Insert(t, c)) == multiset(t) + multiset{c}
  {
    if t != [] && t[|t| - 1].depth > c.depth {
      var pre, last := t[..|t| - 1], t[|t| - 1];
      InsertMultiset(pre, c);
      assert t == pre + [last];
    }
  }

  /** Inserting `c` appends it to its own depth's subsequence and leaves every
      other depth's subsequence as it was. */
  lemma {:induction false} InsertFilter(t: seq<Command>, c: Command, d: real)
    ensures Filter(Insert(t, c), d) == Filter(t, d) + (if c.depth == d then [c] else [])
  {
    if t == [] {
      FilterSnoc([], c, d);
    } else if t[|t| - 1].depth <= c.depth {
      FilterSnoc(t, c, d);
    } else {
      var pre, last := t[..|t| - 1], t[|t| - 1];
      InsertFilter(pre, c, d);
      FilterSnoc(Insert(pre, c), last, d);
      assert t == pre + [last];
      FilterSnoc(pre, last, d);
    }
  }

  /** Inserting `c` adds exactly `c`'s floats to the stream. */
  lemma {:induction false} InsertConcatLength(t: seq<Command>, c: Command)
    ensures |Concat(Insert(t, c))| == |Concat(t)| + |c.verts|
  {
    if t == [] {
      ConcatSnoc([], c);
    } else if t[|t| - 1].depth <= c.depth {
      ConcatSnoc(t, c);
    } else {
      var pre, last := t[..|t| - 1], t[|t| - 1];
      InsertConcatLength(pre, c);
      ConcatSnoc(Insert(pre, c), last);
      assert t == pre + [last];
      ConcatSnoc(pre, last);
    }
  }

  lemma {:induction false} InsertSorted(t: seq<Command>, c: Command)
    requires Sorted(t)
    ensures Sorted(Insert(t, c))
  {
    if t == [] {
    } else if t[|t| - 1].depth <= c.depth {
      var r := t + [c];
      forall i, j | 0 <= i < j < |r|
        ensures r[i].depth <= r[j].depth
      {
        if j < |t| {
          assert r[i] == t[i] && r[j] == t[j];
        } else {
          assert r[i] == t[i];
        }
      }
    } else {
      var pre, last := t[..|t| - 1], t[|t| - 1];
      InsertSorted(pre, c);
      InsertMultiset(pre, c);
      var ins := Insert(pre, c);
      var r := ins + [last];
      forall i | 0 <= i < |ins|
        ensures ins[i].depth <= last.depth
      {
        assert ins[i] in multiset(ins);
        if ins[i] != c {
          assert ins[i] in multiset(pre);
          var j :| 0 <= j < |pre| && pre[j] == ins[i];
          assert t[j] == pre[j];
        }
      }
      forall i, j | 0 <= i < j < |r|
        ensures r[i].depth <= r[j].depth
      {
        if j < |ins| {
          assert r[i] == ins[i] && r[j] == ins[j];
        } else {
          assert r[i] == ins[i];
        }
      }
    }
  }

  lemma {:induction false} SortSorted(s: seq<Command>)
    ensures Sorted(SortByDepth(s))
  {
    if s != [] {
      SortSorted(s[..|s| - 1]);
      InsertSorted(SortByDepth(s[..|s| - 1]), s[|s| - 1]);
    }
  }

  lemma {:induction false} SortMultiset(s: seq<Command>)
    ensures multiset(SortByDepth(s)) == multiset(s)
  {
    if s != [] {
      var pre, last := s[..|s| - 1], s[|s| - 1];
      SortMultiset(pre);
      InsertMultiset(SortByDepth(pre), last);
      assert s == pre + [last];
    }
  }

  lemma {:induction false} SortFilter(s: seq<Command>, d: real)
    ensures Filter(SortByDepth(s), d) == Filter(s, d)
  {
    if s != [] {
      var pre, last := s[..|s| - 1], s[|s| - 1];
      SortFilter(pre, d);
      InsertFilter(SortByDepth(pre), last, d);
    }
  }

  lemma {:induction false} SortConcatLength(s: seq<Command>)
    ensures |Concat(SortByDepth(s))| == |Concat(s)|
  {
    if s != [] {
      var pre, last := s[..|s| - 1], s[|s| - 1];
      SortConcatLength(pre);
      InsertConcatLength(SortByDepth(pre), last);
      assert s == pre + [last];
      ConcatSnoc(pre, last);
    }
  }

  /** SortByDepth is a stable sort: its result is sorted by ascending depth, is a
      permutation of its input, keeps the order of equal-depth commands, and
      carries exactly as many floats. */
  lemma SortByDepthIsStableSort(s: seq<Command>)
    ensures Sorted(SortByDepth(s))
    ensures multiset(SortByDepth(s)) == multiset(s)
    ensures forall d :: Filter(SortByDepth(s), d) == Filter(s, d)
    ensures |Concat(SortByDepth(s))| == |Concat(s)|
  {
    SortSorted(s);
    SortMultiset(s);
    SortConcatLength(s);
    forall d
      ensures Filter(SortByDepth(s), d) == Filter(s, d)
    {
      SortFilter(s, d);
    }
  }

  /** The last command of a sorted sequence has the greatest depth. */
  lemma SortedLastIsDeepest(t: seq<Command>, x: Command)
    requires Sorted(t) && x in t
    ensures x.depth <= t[|t| - 1].depth
  {
    var i :| 0 <= i < |t| && t[i] == x;
    if i < |t| - 1 {
      assert t[i].depth <= t[|t| - 1].depth;
    }
  }

  lemma SnocInjective(p: seq<Command>, a: Command, q: seq<Command>, b: Command)
    requires p + [a] == q + [b]
    ensures p == q && a == b
  {
    assert |p| == |q|;
    assert (p + [a])[..|p|] == p;
    assert (q + [b])[..|q|] == q;
    assert (p + [a])[|p|] == a;
  }

  lemma SortedPrefix(t: seq<Command>)
    requires Sorted(t) && t != []
    ensures Sorted(t[..|t| - 1])
  {
    var p := t[..|t| - 1];
    forall i, j | 0 <= i < j < |p|
      ensures p[i].depth <= p[j].depth
    {
      assert p[i] == t[i] && p[j] == t[j];
    }
  }

  /** Two non-empty sorted sequences with the same subsequence at every depth end
      with the same command. */
  lemma SameLast(t: seq<Command>, u: seq<Command>)
    requires Sorted(t) && Sorted(u) && t != [] && u != []
    requires forall d :: Filter(t, d) == Filter(u, d)
    ensures t[|t| - 1] == u[|u| - 1]
  {
    var t', a := t[..|t| - 1], t[|t| - 1];
    var u', b := u[..|u| - 1], u[|u| - 1];
    // the two last commands have the same depth, the greatest in both
    FilterMembers(t, a.depth, a);
    FilterMembers(u, a.depth, a);
    SortedLastIsDeepest(u, a);
    FilterMembers(u, b.depth, b);
    FilterMembers(t, b.depth, b);
    SortedLastIsDeepest(t, b);
    // and are the last commands of that depth's subsequence
    var m := a.depth;
    assert Filter(t, m) == Filter(t', m) + [a];
    assert Filter(u, m) == Filter(u', m) + [b];
    SnocInjective(Filter(t', m), a, Filter(u', m), b);
  }

  /** Removing the same last command from both keeps every subsequence equal. */
  lemma SameFiltersWithoutLast(t: seq<Command>, u: seq<Command>, d: real)
    requires t != [] && u != [] && t[|t| - 1] == u[|u| - 1]
    requires Filter(t, d) == Filter(u, d)
    ensures Filter(t[..|t| - 1], d) == Filter(u[..|u| - 1], d)
  {
    var a := t[|t| - 1];
    var t', u' := t[..|t| - 1], u[..|u| - 1];
    if a.depth == d {
      assert Filter(t, d) == Filter(t', d) + [a];
      assert Filter(u, d) == Filter(u', d) + [a];
      SnocInjective(Filter(t', d), a, Filter(u', d), a);
    } else {
      assert Filter(t, d) == Filter(t', d) + [];
      assert Filter(u, d) == Filter(u', d) + [];
      assert Filter(t', d) + [] == Filter(t', d);
      assert Filter(u', d) + [] == Filter(u', d);
    }
  }

  /** Two sorted sequences with the same subsequence at every depth are equal, so
      "stable sort by ascending depth" determines its result uniquely. */
  lemma {:induction false} StableSortUnique(t: seq<Command>, u: seq<Command>)
    requires Sorted(t) && Sorted(u)
    requires forall d :: Filter(t, d) == Filter(u, d)
    ensures t == u
    decreases |t|
  {
    if t == [] || u == [] {
      if t != [] {
        var a := t[|t| - 1];
        FilterMembers(t, a.depth, a);
        FilterMembers(u, a.depth, a);
        assert false;
      } else if u != [] {
        var b := u[|u| - 1];
        FilterMembers(u, b.depth, b);
        FilterMembers(t, b.depth, b);
        assert false;
      }
    } else {
      var t', u' := t[..|t| - 1], u[..|u| - 1];
      SameLast(t, u);
      forall d
        ensures Filter(t', d) == Filter(u', d)
      {
        SameFiltersWithoutLast(t, u, d);
      }
      SortedPrefix(t);
      SortedPrefix(u);
      StableSortUnique(t', u');
      assert t == t' + [t[|t| - 1]] && u == u' + [u[|u| - 1]];
    }
  }

  /** Any stable sort of `s` by ascending depth is SortByDepth(s). */
  lemma StableSortIsSortByDepth(s: seq<Command>, t: seq<Command>)
    requires Sorted(t)
    requires forall d :: Filter(t, d) == Filter(s, d)
    ensures t == SortByDepth(s)
  {
    SortByDepthIsStableSort(s);
    StableSortUnique(t, SortByDepth(s));
  }

  /** Commands already in depth order are left as they are; in particular sorting
      twice is sorting once. */
  lemma SortByDepthKeepsSorted(s: seq<Command>)
    requires Sorted(s)
    ensures SortByDepth(s) == s
    ensures SortByDepth(SortByDepth(s)) == SortByDepth(s)
  {
    StableSortIsSortByDepth(s, s);
  }

  /** Sorting keeps every command one rectangle. */
  lemma SortKeepsRects(s: seq<Command>)
    requires AllRects(s)
    ensures AllRects(SortByDepth(s))
  {
    SortByDepthIsStableSort(s);
    var r := SortByDepth(s);
    forall i | 0 <= i < |r|
      ensures |r[i].verts| == RECT_FLOATS
    {
      assert r[i] in multiset(s);
    }
  }

  /** In a stream of rectangles, command `i` occupies floats 36i .. 36i+36. */
  lemma {:induction false} ConcatAt(s: seq<Command>, i: nat)
    requires AllRects(s) && i < |s|
    ensures |Concat(s)| == RECT_FLOATS * |s|
    ensures Concat(s)[RECT_FLOATS * i..RECT_FLOATS * (i + 1)] == s[i].verts
  {
    var pre := s[..|s| - 1];
    if i < |s| - 1 {
      ConcatAt(pre, i);
      assert pre[i] == s[i];
      assert Concat(s)[..RECT_FLOATS * |pre|] == Concat(pre);
    } else if pre != [] {
      ConcatAt(pre, 0);
    }
  }

  /** Reading attribute `a` of vertex 6i+k of a stream is reading it of vertex k
      of the stream's i-th block of 36 floats. */
  lemma AttributeInBlock(v: seq<real>, i: nat, k: nat, a: AttribPointer)
    requires RECT_FLOATS * (i + 1) <= |v| && k < RECT_RECORDS
    requires a == POSITION_ATTRIB || a == COLOR_ATTRIB
    ensures Attribute(v, a, RECT_RECORDS * i + k) == Attribute(v[RECT_FLOATS * i..RECT_FLOATS * (i + 1)], a, k)
  {
    var base := RECT_FLOATS * i;
    var block := v[base..base + RECT_FLOATS];
    var lo := AttribStart(a, k);
    if a == POSITION_ATTRIB {
      assert lo == RECORD_FLOATS * k;
      assert AttribStart(a, RECT_RECORDS * i + k) == base + lo;
    } else {
      assert lo == RECORD_FLOATS * k + 2;
      assert AttribStart(a, RECT_RECORDS * i + k) == base + lo;
    }
    var outer, inner := Attribute(v, a, RECT_RECORDS * i + k), Attribute(block, a, k);
    forall j | 0 <= j < |outer|
      ensures outer[j] == inner[j]
    {
      assert outer[j] == v[base + lo + j];
      assert inner[j] == block[lo + j];
    }
  }

  /** The vertex stream of a flush: vertex 6i+k of the uploaded buffer is vertex k
      of the i-th command in depth order, for both attributes. */
  lemma FlushedRecord(s: seq<Command>, i: nat, k: nat, a: AttribPointer)
    requires AllRects(s) && i < |s| && k < RECT_RECORDS
    requires a == POSITION_ATTRIB || a == COLOR_ATTRIB
    ensures |Concat(SortByDepth(s))| == RECT_FLOATS * |s|
    ensures |SortByDepth(s)[i].verts| == RECT_FLOATS
    ensures Attribute(Concat(SortByDepth(s)), a, RECT_RECORDS * i + k)
            == Attribute(SortByDepth(s)[i].verts, a, k)
  {
    var r := SortByDepth(s);
    SortKeepsRects(s);
    ConcatAt(r, i);
    AttributeInBlock(Concat(r), i, k, a);
  }
}
