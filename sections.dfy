/** The accordion of the profile and admin pages: the list of open section indexes. */
module Sections {
  import Lists

  predicate NoDuplicates(open: seq<int>) {
    forall i, j :: 0 <= i < j < |open| ==> open[i] != open[j]
  }

  /**
   * `toggleSection`: an open index is filtered out (every copy of it, the
   * others keeping their order and count), a closed one is appended.
   */
  function Toggled(open: seq<int>, index: int): (r: seq<int>)
    ensures index in open ==> r == Lists.Without(open, index) && |r| < |open|
    ensures index in open ==> Lists.IsSubsequence(r, open)
    ensures index !in open ==> r == open + [index]
    ensures forall k :: k != index ==> (k in r <==> k in open)
    ensures forall k :: k != index ==> multiset(r)[k] == multiset(open)[k]
  {
    if index in open then
      Lists.FilterDropsSome(open, Lists.Differs(index), index);
      Lists.FilterIsSubsequence(open, Lists.Differs(index));
      Lists.Without(open, index)
    else
      open + [index]
  }

  /** Toggling never introduces a duplicate. */
  lemma ToggledKeepsNoDuplicates(open: seq<int>, index: int)
    requires NoDuplicates(open)
    ensures NoDuplicates(Toggled(open, index))
  {
    if index in open {
      FilterKeepsNoDuplicates(open, Lists.Differs(index));
    }
  }

  lemma {:induction false} FilterKeepsNoDuplicates(open: seq<int>, p: int -> bool)
    requires NoDuplicates(open)
    ensures NoDuplicates(Lists.Filter(open, p))
  {
    if open != [] {
      assert NoDuplicates(open[1..]) by {
        forall i, j | 0 <= i < j < |open[1..]| ensures open[1..][i] != open[1..][j] {
          assert open[1..][i] == open[i + 1] && open[1..][j] == open[j + 1];
        }
      }
      FilterKeepsNoDuplicates(open[1..], p);
      if p(open[0]) {
        var rest := Lists.Filter(open[1..], p);
        assert open[0] !in open[1..] by {
          forall j | 0 <= j < |open[1..]| ensures open[1..][j] != open[0] {
            assert open[1..][j] == open[j + 1];
          }
        }
        assert open[0] !in rest;
        var r := [open[0]] + rest;
        forall i, j | 0 <= i < j < |r| ensures r[i] != r[j] {
          if i == 0 {
            assert r[j] == rest[j - 1];
          } else {
            assert r[i] == rest[i - 1] && r[j] == rest[j - 1];
          }
        }
      }
    }
  }

  /** Opening a closed section and toggling it again gives back exactly the same list. */
  lemma ToggleTwiceFromClosed(open: seq<int>, index: int)
    requires index !in open
    ensures Toggled(Toggled(open, index), index) == open
  {
    Lists.FilterAppend(open, [index], Lists.Differs(index));
    Lists.FilterKeepsAll(open, Lists.Differs(index));
    assert Lists.Filter([index], Lists.Differs(index)) == [];
  }

  /** Closing an open section and toggling it again opens the same set of sections. */
  lemma ToggleTwiceFromOpen(open: seq<int>, index: int)
    requires index in open
    ensures forall k :: k in Toggled(Toggled(open, index), index) <==> k in open
  {
  }
}
