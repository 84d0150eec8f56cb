/** The link editor of the list form
    (app/dashboard/lists/components/LinkInput.tsx): one text box per link,
    an add button, a remove button per row while there is more than one, and
    a warning under every non-empty link that `new URL` rejects. Every edit
    builds a new array and hands it to the form. */
module LinkInput {
  import opened JsText

  /** `handleLinkChange(index, value)`: a copy of the links with the entry at
      `index` replaced. */
  function ChangeLink(links: seq<string>, index: nat, value: string): (r: seq<string>)
    requires index < |links|
    ensures |r| == |links| && r[index] == value
    ensures forall i :: 0 <= i < |links| && i != index ==> r[i] == links[i]
  {
    links[index := value]
  }

  /** `addLink`: one more, empty, link at the end. */
  function AddLink(links: seq<string>): (r: seq<string>)
    ensures |r| == |links| + 1 && r[..|links|] == links && r[|links|] == ""
  {
    links + [""]
  }

  /** `links.filter((_, i) => i !== index)`. */
  function WithoutIndex(links: seq<string>, index: int): (r: seq<string>)
    decreases |links|
  {
    if links == [] then []
    else WithoutIndex(links[..|links| - 1], index) + (if |links| - 1 != index then [links[|links| - 1]] else [])
  }

  /** `removeLink(index)`: with more than one link the entry at `index` is
      dropped (an index outside the list drops nothing); a single link is
      never removed. */
  function RemoveLink(links: seq<string>, index: int): seq<string> {
    if |links| > 1 then WithoutIndex(links, index) else links
  }

  /** The remove buttons are shown only while there is more than one link. */
  predicate ShowsRemove(links: seq<string>) {
    |links| > 1
  }

  /** The red warning: the link is non-empty and `new URL` rejects it. */
  predicate Flagged(link: string, parses: string -> bool) {
    Truthy(link) && !parses(link)
  }

  /** The label of the row at `index`. */
  function Label(index: nat): (r: string)
    ensures r == "JP" <==> index == 1
    ensures r == "HP" <==> index != 1
  {
    if index == 0 then "HP" else if index == 1 then "JP" else "HP"
  }

  /** Dropping an index leaves the other links in order: those before it in
      place and those after it one position earlier. */
  lemma {:induction false} WithoutIndexDropsOne(links: seq<string>, index: int)
    ensures 0 <= index < |links| ==>
      && |WithoutIndex(links, index)| == |links| - 1
      && WithoutIndex(links, index) == links[..index] + links[index + 1..]
    ensures !(0 <= index < |links|) ==> WithoutIndex(links, index) == links
    decreases |links|
  {
    if links != [] {
      var init := links[..|links| - 1];
      var last := links[|links| - 1];
      WithoutIndexDropsOne(init, index);
      if index == |links| - 1 {
        assert init == links[..index] + links[index + 1..];
      } else if 0 <= index < |links| - 1 {
        assert init[..index] == links[..index];
        assert init[index + 1..] + [last] == links[index + 1..];
      } else {
        assert init + [last] == links;
      }
    }
  }

  /** With more than one link, `removeLink(i)` removes exactly element i and
      keeps the others in order; with one link it does nothing. */
  lemma RemoveLinkRemovesOne(links: seq<string>, index: int)
    ensures |links| > 1 && 0 <= index < |links| ==>
      RemoveLink(links, index) == links[..index] + links[index + 1..]
    ensures |links| <= 1 || !(0 <= index < |links|) ==> RemoveLink(links, index) == links
  {
    WithoutIndexDropsOne(links, index);
  }

  /** Removing is offered exactly when it can change the list. */
  lemma RemoveChangesOnlyWhenShown(links: seq<string>, index: nat)
    requires index < |links|
    ensures RemoveLink(links, index) != links <==> ShowsRemove(links)
  {
    WithoutIndexDropsOne(links, index);
    if ShowsRemove(links) {
      assert |RemoveLink(links, index)| == |links| - 1;
    }
  }

  /** Removing the link just added gives back the links before it. */
  lemma RemoveUndoesAdd(links: seq<string>)
    requires links != []
    ensures RemoveLink(AddLink(links), |links|) == links
  {
    var added := AddLink(links);
    WithoutIndexDropsOne(added, |links|);
    assert added[..|links|] == links;
  }

  /** The editor always keeps at least one row: no edit empties a non-empty
      list. */
  lemma EditsKeepARow(links: seq<string>, index: nat, value: string, removed: int)
    requires links != []
    ensures index < |links| ==> ChangeLink(links, index, value) != []
    ensures AddLink(links) != []
    ensures RemoveLink(links, removed) != []
  {
    WithoutIndexDropsOne(links, removed);
  }

  /** An empty entry is never flagged; a non-empty one is flagged exactly
      when `new URL` rejects it. */
  lemma FlaggedIffNonEmptyAndRejected(link: string, parses: string -> bool)
    ensures link == [] ==> !Flagged(link, parses)
    ensures link != [] ==> (Flagged(link, parses) <==> !parses(link))
  {
  }
}
