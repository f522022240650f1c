/** Set-valued answers kept as lists of tags (the selected income sources and
    life situations), and the toggle that a checkbox applies to them. */
module Tags {

  /** The tags a list holds, forgetting order and repetition. */
  function Members(tags: seq<string>): set<string> {
    set x | x in tags
  }

  /** No tag occurs twice. */
  predicate NoDuplicates(tags: seq<string>) {
    forall i, j :: 0 <= i < j < |tags| ==> tags[i] != tags[j]
  }

  /** The list with every occurrence of `t` dropped, the others in order. */
  function Without(tags: seq<string>, t: string): (r: seq<string>)
    ensures forall x :: x in r <==> x in tags && x != t
    ensures |r| <= |tags|
    ensures t !in tags ==> r == tags
    ensures NoDuplicates(tags) ==> NoDuplicates(r)
  {
    if tags == [] then []
    else if tags[0] == t then Without(tags[1..], t)
    else
      assert NoDuplicates(tags) ==> NoDuplicates(tags[1..]) && tags[0] !in tags[1..];
      [tags[0]] + Without(tags[1..], t)
  }

  /** Clicking a checkbox: drop the tag if it is selected, otherwise append it. */
  function Toggle(tags: seq<string>, t: string): (r: seq<string>)
    ensures t in r <==> t !in tags
    ensures forall x :: x != t ==> (x in r <==> x in tags)
    ensures t !in tags ==> r == tags + [t]
  {
    if t in tags then Without(tags, t) else tags + [t]
  }

  /** Toggling keeps a list free of repeated tags, so every list built from the
      empty selection by toggles has none. */
  lemma ToggleKeepsNoDuplicates(tags: seq<string>, t: string)
    requires NoDuplicates(tags)
    ensures NoDuplicates(Toggle(tags, t))
  {
  }

  /** Toggling the same tag twice gives back the same selection. */
  lemma ToggleTwiceRestoresMembers(tags: seq<string>, t: string)
    ensures Members(Toggle(Toggle(tags, t), t)) == Members(tags)
  {
    var r := Toggle(Toggle(tags, t), t);
    assert forall x :: x in r <==> x in tags;
  }

  /** Dropping a tag that was just appended to a list lacking it gives the list back. */
  lemma {:induction false} WithoutAppended(tags: seq<string>, t: string)
    requires t !in tags
    ensures Without(tags + [t], t) == tags
  {
    if tags == [] {
      assert [t][1..] == [];
    } else {
      assert (tags + [t])[1..] == tags[1..] + [t];
      WithoutAppended(tags[1..], t);
    }
  }

  /** When the tag was not selected, toggling it twice gives back the very same list. */
  lemma ToggleTwiceRestoresList(tags: seq<string>, t: string)
    requires t !in tags
    ensures Toggle(Toggle(tags, t), t) == tags
  {
    WithoutAppended(tags, t);
  }
}
