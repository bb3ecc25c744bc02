/** Merging several tags into one: links move to the target tag, duplicates go, sources are deleted. */
module TagMerge {
  import opened Wrappers

  type TagId = nat
  type LinkId = nat

  /** What a link is attached to: (content type, object). */
  type Item = (nat, nat)

  datatype Link = Link(item: Item, tag: TagId)

  datatype MergeResult = MergeResult(targetName: string, selectedCount: nat, movedCount: nat, duplicateCount: nat)

  datatype MergeError = TooFew | TargetNotSelected | SelectionChanged

  /** No item has two links to one tag. */
  ghost predicate UniqueLinks(links: map<LinkId, Link>) {
    forall a, b :: a in links && b in links && links[a] == links[b] ==> a == b
  }

  function LinksOf(links: map<LinkId, Link>, tags: set<TagId>): set<LinkId> {
    set a | a in links && links[a].tag in tags
  }

  function ItemsOf(links: map<LinkId, Link>, ids: set<LinkId>): set<Item>
    requires ids <= links.Keys
  {
    set a | a in ids :: links[a].item
  }

  /** The first links in primary-key order that are not yet represented move; the others are duplicates. */
  ghost predicate Sorted(links: map<LinkId, Link>, seen: set<LinkId>, taken: set<Item>,
                         move: set<LinkId>, duplicate: set<LinkId>)
    requires seen <= links.Keys
  {
    && move + duplicate == seen && move !! duplicate
    && (forall a :: a in move ==> links[a].item !in taken)
    && (forall a, b :: a in move && b in move && links[a].item == links[b].item ==> a == b)
    && (forall a :: a in duplicate ==> links[a].item in taken || exists b :: b in move && b < a && links[b].item == links[a].item)
  }

  class TagStore {
    var tags: map<TagId, string>
    var links: map<LinkId, Link>

    constructor (tags: map<TagId, string>, links: map<LinkId, Link>)
      ensures this.tags == tags && this.links == links
    {
      this.tags, this.links := tags, links;
    }

    /** Decide for every source link, in primary-key order, whether it moves or is a duplicate. */
    method SortLinks(sources: set<LinkId>, taken: set<Item>) returns (move: set<LinkId>, duplicate: set<LinkId>)
      requires sources <= links.Keys
      ensures Sorted(links, sources, taken, move, duplicate)
    {
      move, duplicate := {}, {};
      var occupied, rest := taken, sources;
      while rest != {}
        invariant rest <= sources
        invariant forall a, b :: a in sources - rest && b in rest ==> a < b
        invariant Sorted(links, sources - rest, taken, move, duplicate)
        invariant occupied == taken + ItemsOf(links, move)
        decreases rest
      {
        var a := Least(rest);
        if links[a].item in occupied {
          duplicate := duplicate + {a};
        } else {
          occupied := occupied + {links[a].item};
          move := move + {a};
        }
        rest := rest - {a};
      }
      assert sources - rest == sources;
    }

    method Merge(target: TagId, selected: set<TagId>) returns (r: Result<MergeResult, MergeError>)
      requires UniqueLinks(links)
      modifies this
      ensures r.Ok? <==> |selected| >= 2 && target in selected && selected <= old(tags).Keys
      ensures r.Err? ==> tags == old(tags) && links == old(links)
      ensures r.Err? ==> r.error == if |selected| < 2 then TooFew else if target !in selected then TargetNotSelected
                                    else SelectionChanged
      ensures r.Ok? ==> Merged(old(links), links, target, selected) && UniqueLinks(links)
      ensures r.Ok? ==>
                && tags == old(tags) - (selected - {target})
                && r.value.targetName == old(tags)[target] && r.value.selectedCount == |selected|
                && r.value.movedCount + r.value.duplicateCount == |LinksOf(old(links), selected - {target})|
                && r.value.movedCount == |LinksOf(links, {target})| - |LinksOf(old(links), {target})|
                && r.value.duplicateCount == |old(links)| - |links|
    {
      if |selected| < 2 {
        return Err(TooFew);
      }
      if target !in selected {
        return Err(TargetNotSelected);
      }
      if !(selected <= tags.Keys) {
        return Err(SelectionChanged);
      }
      var sourceTags := selected - {target};
      var own := LinksOf(links, {target});
      var sources := LinksOf(links, sourceTags);
      var move, duplicate := SortLinks(sources, ItemsOf(links, own));
      MergeIsRight(links, target, selected, move, duplicate);
      links := Rewritten(links, target, move, duplicate);
      tags := tags - sourceTags;
      return Ok(MergeResult(tags[target], |selected|, |move|, |duplicate|));
    }
  }

  method Least(s: set<LinkId>) returns (a: LinkId)
    requires s != {}
    ensures a in s && forall b :: b in s ==> a <= b
  {
    a :| a in s;
    var rest := s - {a};
    ghost var done := {a};
    while rest != {}
      invariant a in s && done + rest == s && forall b :: b in done ==> a <= b
      decreases rest
    {
      var b :| b in rest;
      if b < a {
        a := b;
      }
      rest, done := rest - {b}, done + {b};
    }
  }

  function Rewritten(links: map<LinkId, Link>, target: TagId, move: set<LinkId>, duplicate: set<LinkId>): map<LinkId, Link> {
    map a | a in links && a !in duplicate :: if a in move then links[a].(tag := target) else links[a]
  }

  /**
   The target is linked to exactly the items of all selected tags; the source
   tags have no links left; links of other tags are as they were.
   */
  ghost predicate Merged(before: map<LinkId, Link>, after: map<LinkId, Link>, target: TagId, selected: set<TagId>) {
    && ItemsOf(after, LinksOf(after, {target})) == ItemsOf(before, LinksOf(before, selected))
    && LinksOf(after, selected - {target}) == {}
    && (forall a :: a in before && before[a].tag !in selected - {target} ==> a in after && after[a] == before[a])
    && (forall a :: a in after ==> a in before && after[a].item == before[a].item)
  }

  lemma MergeIsRight(links: map<LinkId, Link>, target: TagId, selected: set<TagId>,
                     move: set<LinkId>, duplicate: set<LinkId>)
    requires UniqueLinks(links) && target in selected
    requires Sorted(links, LinksOf(links, selected - {target}), ItemsOf(links, LinksOf(links, {target})), move, duplicate)
    ensures var after := Rewritten(links, target, move, duplicate);
            && Merged(links, after, target, selected) && UniqueLinks(after)
            && |move| + |duplicate| == |LinksOf(links, selected - {target})|
            && |move| == |LinksOf(after, {target})| - |LinksOf(links, {target})|
            && |duplicate| == |links| - |after|
  {
    SameItems(links, target, selected, move, duplicate);
    StaysUnique(links, target, selected, move, duplicate);
    Counts(links, target, selected, move, duplicate);
  }

  lemma StaysUnique(links: map<LinkId, Link>, target: TagId, selected: set<TagId>,
                    move: set<LinkId>, duplicate: set<LinkId>)
    requires UniqueLinks(links) && target in selected
    requires Sorted(links, LinksOf(links, selected - {target}), ItemsOf(links, LinksOf(links, {target})), move, duplicate)
    ensures UniqueLinks(Rewritten(links, target, move, duplicate))
  {
    var after := Rewritten(links, target, move, duplicate);
    assert forall c :: c in after && c !in move && after[c].tag == target ==> c in LinksOf(links, {target});
    forall a, b | a in after && b in after && after[a] == after[b] ensures a == b {}
  }

  lemma Counts(links: map<LinkId, Link>, target: TagId, selected: set<TagId>,
               move: set<LinkId>, duplicate: set<LinkId>)
    requires target in selected
    requires Sorted(links, LinksOf(links, selected - {target}), ItemsOf(links, LinksOf(links, {target})), move, duplicate)
    ensures var after := Rewritten(links, target, move, duplicate);
            && |move| + |duplicate| == |LinksOf(links, selected - {target})|
            && |move| == |LinksOf(after, {target})| - |LinksOf(links, {target})|
            && |duplicate| == |links| - |after|
  {
    assert |move + duplicate| == |move| + |duplicate|;
    CountTarget(links, target, move, duplicate);
    CountDeleted(links, target, move, duplicate);
  }

  lemma CountTarget(links: map<LinkId, Link>, target: TagId, move: set<LinkId>, duplicate: set<LinkId>)
    requires move <= links.Keys && move !! duplicate
    requires forall a :: a in move + duplicate && a in links ==> links[a].tag != target
    ensures |LinksOf(Rewritten(links, target, move, duplicate), {target})| == |LinksOf(links, {target})| + |move|
  {
    var own := LinksOf(links, {target});
    assert LinksOf(Rewritten(links, target, move, duplicate), {target}) == own + move && own !! move;
  }

  lemma CountDeleted(links: map<LinkId, Link>, target: TagId, move: set<LinkId>, duplicate: set<LinkId>)
    requires duplicate <= links.Keys
    ensures |Rewritten(links, target, move, duplicate)| == |links| - |duplicate|
  {
    var after := Rewritten(links, target, move, duplicate);
    assert after.Keys == links.Keys - duplicate;
    assert |links.Keys| == |links| && |after.Keys| == |after|;
  }

  lemma SameItems(links: map<LinkId, Link>, target: TagId, selected: set<TagId>,
                  move: set<LinkId>, duplicate: set<LinkId>)
    requires target in selected
    requires Sorted(links, LinksOf(links, selected - {target}), ItemsOf(links, LinksOf(links, {target})), move, duplicate)
    ensures var after := Rewritten(links, target, move, duplicate);
            ItemsOf(after, LinksOf(after, {target})) == ItemsOf(links, LinksOf(links, selected))
  {
    var after := Rewritten(links, target, move, duplicate);
    forall x | x in ItemsOf(links, LinksOf(links, selected)) ensures x in ItemsOf(after, LinksOf(after, {target})) {
      var a :| a in LinksOf(links, selected) && links[a].item == x;
      if a in duplicate {
        if x in ItemsOf(links, LinksOf(links, {target})) {
          var b :| b in LinksOf(links, {target}) && links[b].item == x;
          assert b in LinksOf(after, {target}) && after[b].item == x;
        } else {
          var b :| b in move && links[b].item == x;
          assert b in LinksOf(after, {target}) && after[b].item == x;
        }
      } else {
        assert a in LinksOf(after, {target}) && after[a].item == x;
      }
    }
  }
}
