/** Where a sync pass leaves the two sides: it converges at once exactly when deletes are clean, and always by the second. */
module Convergence {
  import opened Core
  import opened SyncTree

  // ---------------------------------------------------------------- one side, whichever

  /** Paths held by one side alone are either sent across or deleted; shared ones are not deleted. */
  ghost predicate Sorts(own: Tree, other: Tree, m: Moves) {
    && m.sent <= other.Keys && m.sentBack <= own.Keys
    && m.gone <= own.Keys - other.Keys && m.goneBack <= other.Keys - own.Keys
    && own.Keys - other.Keys == m.gone + (m.sentBack - other.Keys) && m.gone !! m.sentBack
    && other.Keys - own.Keys == m.goneBack + (m.sent - own.Keys) && m.goneBack !! m.sent
    && m.sent !! m.sentBack
  }

  /** Everything below a deleted path is deleted too. */
  ghost predicate Clean(own: Tree, other: Tree, gone: set<Path>) {
    forall x, q :: x in gone && (q in own || q in other) && IsPrefix(x, q) ==> q in gone
  }

  ghost predicate Shaped(own: Tree, other: Tree, m: Moves) {
    TreeShaped(own) && TreeShaped(other) && SameKinds(own, other) && Sorts(own, other, m)
  }

  /** With clean deletes a side ends with every path that is not deleted. */
  lemma CleanSide(own: Tree, other: Tree, m: Moves, p: Path)
    requires Shaped(own, other, m) && Clean(own, other, m.gone + m.goneBack)
    ensures p in Side(own, other, m.sent, m.gone) <==> (p in own || p in other) && p !in m.gone && p !in m.goneBack
  {
  }

  /** A path kept below a path this side deletes ends on the other side and not on this one. */
  lemma UncleanSide(own: Tree, other: Tree, m: Moves, x: Path, q: Path)
    requires Shaped(own, other, m) && x in m.gone && (q in own || q in other) && IsPrefix(x, q)
    requires q !in m.gone && q !in m.goneBack
    ensures q !in Side(own, other, m.sent, m.gone) && q in Side(other, own, m.sentBack, m.goneBack)
  {
    assert Covers(m.gone, q);
    assert q in other ==> x in other;
    Crossed(own, other, m, q);
  }

  /** What one side alone held and is kept ends on the other side as it was. */
  lemma Crossed(own: Tree, other: Tree, m: Moves, q: Path)
    requires Shaped(own, other, m) && q in own && q !in other && q !in m.gone
    ensures var t := Side(other, own, m.sentBack, m.goneBack); q in t && t[q] == own[q]
  {
  }

  lemma SharedStays(own: Tree, other: Tree, m: Moves, p: Path)
    requires Shaped(own, other, m) && p in own && p in other
    ensures p in Side(own, other, m.sent, m.gone)
  {
  }

  // ---------------------------------------------------------------- both sides

  /** Paths held by both sides and sent neither way are the same item already. */
  ghost predicate Honest(own: Tree, other: Tree, m: Moves) {
    forall p :: p in own && p in other && p !in m.sent && p !in m.sentBack ==> own[p] == other[p]
  }

  lemma SidesAgree(own: Tree, other: Tree, m: Moves, p: Path)
    requires Shaped(own, other, m)
    requires p in Side(own, other, m.sent, m.gone) && p in Side(other, own, m.sentBack, m.goneBack)
    ensures var a, b := Side(own, other, m.sent, m.gone), Side(other, own, m.sentBack, m.goneBack);
            a[p].Kind() == b[p].Kind() && (Honest(own, other, m) ==> a[p] == b[p])
  {
  }

  /** A path not deleted ends on at least one side, as the item that is sent or, if none is, as it was. */
  lemma KeptSomewhere(own: Tree, other: Tree, m: Moves, p: Path)
    requires Shaped(own, other, m) && Honest(own, other, m)
    requires (p in own || p in other) && p !in m.gone && p !in m.goneBack
    ensures var a, b := Side(own, other, m.sent, m.gone), Side(other, own, m.sentBack, m.goneBack);
            var item := if p in other && (p !in own || p in m.sent) then other[p] else own[p];
            (p in a || p in b) && (p in a ==> a[p] == item) && (p in b ==> b[p] == item)
  {
    ShapedBack(own, other, m);
    if p in own && p in other {
      SharedStays(own, other, m, p);
    } else if p in own {
      Crossed(own, other, m, p);
    } else {
      Crossed(other, own, m.Swap(), p);
    }
    hide Covers, Reaches, TreeShaped;
  }

  lemma ShapedBack(own: Tree, other: Tree, m: Moves)
    requires Shaped(own, other, m)
    ensures Shaped(other, own, m.Swap())
  {
  }

  /** Both sides end with the same paths exactly when the deletes are clean. */
  lemma SameKeysIff(own: Tree, other: Tree, m: Moves)
    requires Shaped(own, other, m)
    ensures Side(own, other, m.sent, m.gone).Keys == Side(other, own, m.sentBack, m.goneBack).Keys
            <==> Clean(own, other, m.gone + m.goneBack)
  {
    ShapedBack(own, other, m);
    var a, b := Side(own, other, m.sent, m.gone), Side(other, own, m.sentBack, m.goneBack);
    var all := m.gone + m.goneBack;
    hide Side, Shaped;
    if Clean(own, other, all) {
      assert m.goneBack + m.gone == all;
      assert Clean(other, own, all);
      forall p ensures p in a <==> p in b {
        CleanSide(own, other, m, p);
        CleanSide(other, own, m.Swap(), p);
      }
      assert a.Keys == b.Keys;
    } else {
      var x, q :| x in all && (q in own || q in other) && IsPrefix(x, q) && q !in all;
      if x in m.gone {
        UncleanSide(own, other, m, x, q);
        assert q !in a.Keys && q in b.Keys;
      } else {
        UncleanSide(other, own, m.Swap(), x, q);
        assert q in a.Keys && q !in b.Keys;
      }
    }
  }
}
