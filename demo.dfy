/**
 * The Demo page: three condition cards over one optional selected id. The
 * selected card is active (flipped to its video), the other two are locked,
 * and a click toggles the selection unless the card is locked.
 */
module DemoPage {
  import opened Wrappers

  /** One row of `conditions`; `name` holds the row's `label` (a reserved word in Dafny). */
  datatype Condition = Condition(id: nat, name: string, code: string)

  /** The `conditions` table: three cards whose ids are their indices. */
  function Conditions(): (cs: seq<Condition>)
    ensures |cs| == 3
    ensures forall i :: 0 <= i < |cs| ==> cs[i].id == i
  {
    [ Condition(0, "Traumatic Iritis", ""),
      Condition(1, "Retinal Hemorrhage", ""),
      Condition(2, "Papilledema", "") ]
  }

  /** `videoPlayingId` is `null` or the id of one of the cards. */
  predicate IsSelection(sel: Option<nat>) {
    sel == None || exists i :: 0 <= i < |Conditions()| && Conditions()[i].id == sel.value
  }

  /** The card with this id is the one playing. */
  predicate IsActive(sel: Option<nat>, id: nat)
    ensures sel == None ==> !IsActive(sel, id)
    ensures forall other: nat :: IsActive(sel, id) && other != id ==> sel != Some(other)
  {
    sel == Some(id)
  }

  /** Some other card is playing, so this one is locked. */
  function IsLocked(sel: Option<nat>, id: nat): (r: bool)
    ensures r ==> !IsActive(sel, id)
    ensures sel == None ==> !r
    ensures sel != None ==> (r <==> !IsActive(sel, id))
  {
    sel != None && sel != Some(id)
  }

  /** The card's `onClick`: nothing when locked, else toggle between this card and no selection. */
  function Click(sel: Option<nat>, id: nat): (r: Option<nat>)
    ensures IsLocked(sel, id) ==> r == sel
    ensures IsActive(sel, id) ==> r == None
    ensures sel == None ==> r == Some(id) && IsActive(r, id)
    ensures !IsLocked(sel, id) ==> (r == None <==> IsActive(sel, id))
  {
    if !IsLocked(sel, id) then (if IsActive(sel, id) then None else Some(id)) else sel
  }

  /** The selection after clicking the cards at the given indices in turn. */
  function ClickAll(sel: Option<nat>, clicks: seq<nat>): Option<nat>
    requires forall k :: 0 <= k < |clicks| ==> clicks[k] < |Conditions()|
    decreases |clicks|
  {
    if clicks == [] then sel else ClickAll(Click(sel, Conditions()[clicks[0]].id), clicks[1..])
  }

  /** Clicking a card keeps `videoPlayingId` null or a card id. */
  lemma ClickKeepsSelection(sel: Option<nat>, i: nat)
    requires IsSelection(sel) && i < |Conditions()|
    ensures IsSelection(Click(sel, Conditions()[i].id))
  {
  }

  /** Any run of clicks keeps `videoPlayingId` null or a card id. */
  lemma {:induction false} ClickAllKeepsSelection(sel: Option<nat>, clicks: seq<nat>)
    requires IsSelection(sel)
    requires forall k :: 0 <= k < |clicks| ==> clicks[k] < |Conditions()|
    ensures IsSelection(ClickAll(sel, clicks))
    decreases |clicks|
  {
    if clicks != [] {
      ClickKeepsSelection(sel, clicks[0]);
      ClickAllKeepsSelection(Click(sel, Conditions()[clicks[0]].id), clicks[1..]);
    }
  }

  /** With a card selected, exactly that card is active and every other card is locked. */
  lemma SelectionLocksOthers(sel: Option<nat>, i: nat)
    requires sel != None && IsSelection(sel) && i < |Conditions()|
    ensures IsActive(sel, Conditions()[i].id) <==> i == sel.value
    ensures IsLocked(sel, Conditions()[i].id) <==> i != sel.value
  {
  }

  /** Clicking a card with nothing selected makes it active and locks the other two; clicking it again clears. */
  lemma ClickFromNothing(i: nat, j: nat)
    requires i < |Conditions()| && j < |Conditions()|
    ensures var sel := Click(None, Conditions()[i].id);
      (IsActive(sel, Conditions()[j].id) <==> i == j) &&
      (IsLocked(sel, Conditions()[j].id) <==> i != j) &&
      Click(sel, Conditions()[i].id) == None
  {
  }

  /** The page holding the `videoPlayingId` state. */
  class Demo {
    var videoPlayingId: Option<nat>

    ghost predicate Valid()
      reads this
    {
      IsSelection(videoPlayingId)
    }

    constructor ()
      ensures videoPlayingId == None && Valid()
    {
      videoPlayingId := None;
    }

    /** The `onClick` of the card at index `idx`. */
    method ClickCard(idx: nat)
      requires Valid() && idx < |Conditions()|
      modifies this
      ensures videoPlayingId == Click(old(videoPlayingId), Conditions()[idx].id) && Valid()
    {
      var item := Conditions()[idx];
      var isActive := videoPlayingId == Some(item.id);
      var isLocked := videoPlayingId != None && videoPlayingId != Some(item.id);
      if !isLocked {
        videoPlayingId := if isActive then None else Some(item.id);
      }
      ClickKeepsSelection(old(videoPlayingId), idx);
    }
  }
}
