/** The client-side draft list: held in page state and mirrored in local
    storage under one key as a JSON array. */
module Drafts {
  import opened Text
  import opened Ordering

  datatype Draft = Draft(id: string, to: string, subject: string, body: string, timestamp: nat)

  /** What local storage holds under the drafts key: nothing (or an empty
      string), text that does not parse, or a parsed list. */
  datatype Stored = Missing | Unparseable | Parsed(drafts: seq<Draft>)

  function DraftStamp(d: Draft): int {
    d.timestamp
  }

  /** The list after the mount-time load: a stored list when one parses,
      else empty. */
  function Loaded(stored: Stored): (r: seq<Draft>)
    ensures stored.Parsed? ==> r == stored.drafts
    ensures !stored.Parsed? ==> r == []
  {
    match stored
    case Parsed(drafts) => drafts
    case _ => []
  }

  /** The drafts whose id differs from `id`, in their original order. */
  function WithoutId(ds: seq<Draft>, id: string): (r: seq<Draft>)
    ensures |r| <= |ds|
    ensures forall k :: 0 <= k < |r| ==> r[k].id != id
  {
    if ds == [] then []
    else
      var rest := WithoutId(ds[1..], id);
      if ds[0].id == id then rest else [ds[0]] + rest
  }

  /** Deleting keeps every draft with another id as often as it occurred
      and drops every draft with this id. */
  lemma {:induction false} WithoutIdCounts(ds: seq<Draft>, id: string, d: Draft)
    ensures d.id != id ==> multiset(WithoutId(ds, id))[d] == multiset(ds)[d]
    ensures d.id == id ==> multiset(WithoutId(ds, id))[d] == 0
  {
    if ds != [] {
      WithoutIdCounts(ds[1..], id, d);
      assert ds == [ds[0]] + ds[1..];
      var rest := WithoutId(ds[1..], id);
      if ds[0].id != id {
        assert multiset([ds[0]] + rest) == multiset{ds[0]} + multiset(rest);
      }
    }
  }

  /** Filtering works piece by piece, so the drafts that stay keep their
      relative order. */
  lemma {:induction false} WithoutIdAppend(a: seq<Draft>, b: seq<Draft>, id: string)
    ensures WithoutId(a + b, id) == WithoutId(a, id) + WithoutId(b, id)
  {
    if a != [] {
      var ab := a + b;
      assert ab[0] == a[0] && ab[1..] == a[1..] + b;
      WithoutIdAppend(a[1..], b, id);
      if a[0].id != id {
        calc {
          WithoutId(ab, id);
          [a[0]] + WithoutId(a[1..] + b, id);
          [a[0]] + (WithoutId(a[1..], id) + WithoutId(b, id));
          ([a[0]] + WithoutId(a[1..], id)) + WithoutId(b, id);
        }
      }
    } else {
      assert a + b == b;
    }
  }

  /** Deleting an id no draft carries changes nothing. */
  lemma {:induction false} WithoutAbsentId(ds: seq<Draft>, id: string)
    requires forall k :: 0 <= k < |ds| ==> ds[k].id != id
    ensures WithoutId(ds, id) == ds
  {
    if ds != [] {
      WithoutAbsentId(ds[1..], id);
    }
  }

  class DraftStore {
    var drafts: seq<Draft>
    var persisted: Stored

    /** Mounting: loads the stored list when it parses. */
    constructor (stored: Stored)
      ensures drafts == Loaded(stored) && persisted == stored
    {
      drafts := Loaded(stored);
      persisted := stored;
    }

    /** `saveDraft`: `idClock` and `stampClock` are the two clock readings
        taken for the id and the timestamp. */
    method SaveDraft(to: string, subject: string, body: string, idClock: nat, stampClock: nat) returns (d: Draft)
      modifies this
      ensures d == Draft(NatToString(idClock), to, subject, body, stampClock)
      ensures drafts == old(drafts) + [d] && persisted == Parsed(drafts)
      ensures idClock == stampClock ==> DigitsValue(d.id) == d.timestamp
    {
      d := Draft(NatToString(idClock), to, subject, body, stampClock);
      drafts := drafts + [d];
      persisted := Parsed(drafts);
      if idClock == stampClock {
        DigitsValueOfNatToString(idClock);
      }
    }

    /** `getDrafts`: sorts the list itself newest first and returns it; the
        stored copy is not rewritten. */
    method GetDrafts() returns (r: seq<Draft>)
      modifies this
      ensures drafts == SortNewestFirst(old(drafts), DraftStamp) && r == drafts
      ensures NewestFirst(r, DraftStamp) && multiset(r) == multiset(old(drafts))
      ensures persisted == old(persisted)
    {
      drafts := SortNewestFirst(drafts, DraftStamp);
      r := drafts;
    }

    /** `deleteDraft`. */
    method DeleteDraft(id: string)
      modifies this
      ensures drafts == WithoutId(old(drafts), id) && persisted == Parsed(drafts)
    {
      drafts := WithoutId(drafts, id);
      persisted := Parsed(drafts);
    }

    /** `clearDrafts`. */
    method ClearDrafts()
      modifies this
      ensures drafts == [] && persisted == Missing
    {
      drafts := [];
      persisted := Missing;
    }
  }
}
