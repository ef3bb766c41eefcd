/** The services section: an accordion of service cards of which at most one
    is open, and a header icon that rotates through a fixed list on a timer. */
module ServicesComponent {

  import opened Options

  /** The ids of the service cards, in display order. */
  const ServiceIds: seq<string> :=
    ["concrete-pressure-washing", "bin-cleaning", "carpet-cleaning", "junk-removal"]

  /** The number of icons in the rotation. */
  const IconCount := 6

  /** No id occurs twice. */
  predicate Distinct(ids: seq<string>) {
    forall i, j :: 0 <= i < j < |ids| ==> ids[i] != ids[j]
  }

  /** The open card after the card `id` is clicked: clicking the open card
      closes it, clicking any other card opens that one instead. */
  function Toggle(active: Option<string>, id: string): (r: Option<string>)
    ensures r == None <==> active == Some(id)
    ensures r != None ==> r == Some(id)
  {
    if active == Some(id) then None else Some(id)
  }

  /** Whether the card `id` is shown expanded. */
  predicate IsActive(active: Option<string>, id: string)
    ensures IsActive(active, id) <==> Toggle(active, id) == None
  {
    active == Some(id)
  }

  /** The number of cards among `ids` shown expanded. */
  function ActiveCount(active: Option<string>, ids: seq<string>): nat {
    if ids == [] then 0
    else (if IsActive(active, ids[0]) then 1 else 0) + ActiveCount(active, ids[1..])
  }

  /** Among cards with distinct ids, exactly one is expanded when the open id
      is one of them, and none otherwise. */
  lemma {:induction false} AtMostOneActive(active: Option<string>, ids: seq<string>)
    requires Distinct(ids)
    ensures ActiveCount(active, ids) <= 1
    ensures ActiveCount(active, ids) == 1 <==> active.Some? && active.value in ids
  {
    if ids != [] {
      assert Distinct(ids[1..]);
      AtMostOneActive(active, ids[1..]);
      if IsActive(active, ids[0]) {
        NotActiveElsewhere(active, ids);
      }
      assert ids == [ids[0]] + ids[1..];
    }
  }

  lemma {:induction false} NotActiveElsewhere(active: Option<string>, ids: seq<string>)
    requires Distinct(ids) && ids != [] && IsActive(active, ids[0])
    ensures ActiveCount(active, ids[1..]) == 0
  {
    NoneActive(active, ids[1..], ids[0]);
  }

  lemma {:induction false} NoneActive(active: Option<string>, ids: seq<string>, open: string)
    requires active == Some(open) && open !in ids
    ensures ActiveCount(active, ids) == 0
  {
    if ids != [] {
      assert ids[0] != open;
      NoneActive(active, ids[1..], open);
    }
  }

  /** The ids of the service cards are distinct, so at most one card is ever
      expanded. */
  lemma ServiceIdsDistinct()
    ensures Distinct(ServiceIds)
    ensures forall active: Option<string> :: ActiveCount(active, ServiceIds) <= 1
  {
    forall active: Option<string> ensures ActiveCount(active, ServiceIds) <= 1 {
      AtMostOneActive(active, ServiceIds);
    }
  }

  /** Clicking a card twice from the closed state closes it again; clicking
      the open card twice leaves it open. */
  lemma ToggleTwice(active: Option<string>, id: string)
    requires active == None || active == Some(id)
    ensures Toggle(Toggle(active, id), id) == active
  {
  }

  /** Clicking a card other than the open one replaces it: the open card
      closes and only the clicked one is expanded. */
  lemma ToggleReplaces(open: string, id: string)
    requires open != id
    ensures Toggle(Some(open), id) == Some(id)
    ensures !IsActive(Toggle(Some(open), id), open)
  {
  }

  /** `(prev + 1) % serviceIcons.length`. */
  function NextIcon(i: nat): (r: nat)
    ensures r < IconCount
    ensures i + 1 < IconCount ==> r == i + 1
    ensures i + 1 == IconCount ==> r == 0
  {
    (i + 1) % IconCount
  }

  /** The icon shown after `k` ticks of the rotation timer. */
  function IconAfter(i: nat, k: nat): (r: nat)
    requires i < IconCount
    ensures r < IconCount
  {
    if k == 0 then i else NextIcon(IconAfter(i, k - 1))
  }

  /** After `k` ticks the rotation has moved `k` places round the icons. */
  lemma {:induction false} IconAfterIsModular(i: nat, k: nat)
    requires i < IconCount
    ensures IconAfter(i, k) == (i + k) % IconCount
  {
    if k > 0 {
      IconAfterIsModular(i, k - 1);
    }
  }

  /** Every `IconCount` ticks the rotation shows the same icon again. */
  lemma IconPeriodic(i: nat, k: nat)
    requires i < IconCount
    ensures IconAfter(i, k + IconCount) == IconAfter(i, k)
  {
    IconAfterIsModular(i, k);
    IconAfterIsModular(i, k + IconCount);
  }

  /** The section's state: the open card, if any, and the icon shown. */
  class Services {
    var activeService: Option<string>
    var currentIcon: nat

    ghost predicate Valid()
      reads this
    {
      currentIcon < IconCount
    }

    constructor ()
      ensures Valid()
      ensures activeService == None && currentIcon == 0
    {
      activeService := None;
      currentIcon := 0;
    }

    /** The card `id` was clicked. */
    method ToggleService(id: string)
      requires Valid()
      modifies this
      ensures Valid() && currentIcon == old(currentIcon)
      ensures activeService == Toggle(old(activeService), id)
    {
      activeService := if activeService == Some(id) then None else Some(id);
    }

    /** The two-second rotation timer fired. */
    method RotateIcon()
      requires Valid()
      modifies this
      ensures Valid() && activeService == old(activeService)
      ensures currentIcon == NextIcon(old(currentIcon))
    {
      currentIcon := (currentIcon + 1) % IconCount;
    }
  }
}
