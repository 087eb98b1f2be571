/** The deletion service when nothing else runs: what one call leaves in the database. */
module AccountDeletion {
  import opened Wrappers
  import opened Sequences
  import opened AccountErasure

  /** A customer that billing can let go; `stuck` are those it cannot delete now. */
  predicate Releasable(customer: Option<Customer>, stripe: bool, stuck: set<Customer>) {
    customer.None? || !stripe || customer.value !in stuck
  }

  /** What is left after one workspace is processed. */
  function ErasedOne(ws: Workspaces, id: Id, now: int, stripe: bool, stuck: set<Customer>): Workspaces {
    if id !in ws then ws
    else if LeavesAccountsWithoutOperator(ws, id) then Put(ws, id, Withdrawn(ws[id]))
    else if !IsDue(ws[id], now) then ws
    else if !Releasable(ws[id].customer, stripe, stuck) then Put(ws, id, Unclaimed(ws[id]))
    else ws - {id}
  }

  function ErasedAll(ws: Workspaces, ids: seq<Id>, now: int, stripe: bool, stuck: set<Customer>): Workspaces {
    if ids == [] then ws else ErasedOne(ErasedAll(ws, Init(ids), now, stripe, stuck), Last(ids), now, stripe, stuck)
  }

  function Operators(): Id -> bool {
    (id: Id) => id == OPERATOR
  }

  function Others(): Id -> bool {
    (id: Id) => id != OPERATOR
  }

  /** `operatorLast`. */
  function OperatorLast(ids: seq<Id>): seq<Id> {
    Filter(Others(), ids) + Filter(Operators(), ids)
  }

  /** What a run of the deletion leaves of a workspace beside the operator's. */
  predicate OthersOutcome(before: Workspaces, after: Workspaces, ids: seq<Id>, now: int, stripe: bool, stuck: set<Customer>,
                          id: Id)
  {
    if id !in before then id !in after
    else if id !in ids || before[id].dueAt.None? || before[id].dueAt.value > now then
      id in after && after[id] == before[id]
    else if Releasable(before[id].customer, stripe, stuck) then id !in after
    else id in after && after[id] == Unclaimed(before[id])
  }

  /** Beside the operator's, each workspace is decided by its own row. */
  lemma {:induction false} OthersErased(ws: Workspaces, ids: seq<Id>, now: int, stripe: bool, stuck: set<Customer>, id: Id)
    requires Distinct(ids) && id != OPERATOR
    ensures OthersOutcome(ws, ErasedAll(ws, ids, now, stripe, stuck), ids, now, stripe, stuck, id)
  {
    if ids != [] {
      OthersErased(ws, Init(ids), now, stripe, stuck, id);
      assert ids == Init(ids) + [Last(ids)];
      assert Last(ids) !in Init(ids);
    }
  }

  lemma {:induction false} OnlyListedErased(ws: Workspaces, ids: seq<Id>, now: int, stripe: bool, stuck: set<Customer>,
                                            id: Id)
    requires id !in ids
    ensures id in ErasedAll(ws, ids, now, stripe, stuck) <==> id in ws
  {
    if ids != [] {
      assert ids == Init(ids) + [Last(ids)];
      OnlyListedErased(ws, Init(ids), now, stripe, stuck, id);
    }
  }

  lemma {:induction false} OperatorUntouched(ws: Workspaces, ids: seq<Id>, now: int, stripe: bool, stuck: set<Customer>)
    requires OPERATOR !in ids
    ensures var after := ErasedAll(ws, ids, now, stripe, stuck);
            (OPERATOR in after <==> OPERATOR in ws) && (OPERATOR in ws ==> after[OPERATOR] == ws[OPERATOR])
  {
    if ids != [] {
      assert ids == Init(ids) + [Last(ids)];
      OperatorUntouched(ws, Init(ids), now, stripe, stuck);
    }
  }

  lemma {:induction false} OperatorOnce(ids: seq<Id>)
    requires Distinct(ids)
    ensures Filter(Operators(), ids) == if OPERATOR in ids then [OPERATOR] else []
  {
    if ids != [] {
      OperatorOnce(Init(ids));
      assert ids == Init(ids) + [Last(ids)];
      assert Last(ids) !in Init(ids);
    }
  }

  lemma OperatorParts(ids: seq<Id>)
    requires Distinct(ids)
    ensures Distinct(OperatorLast(ids))
    ensures OperatorLast(ids) == Filter(Others(), ids) + if OPERATOR in ids then [OPERATOR] else []
    ensures forall id :: id in OperatorLast(ids) <==> id in ids
  {
    FilterMembers(Others(), ids);
    FilterDistinct(Others(), ids);
    OperatorOnce(ids);
  }

  predicate OnlyOperator(ws: Workspaces) {
    forall id :: id in ws ==> id == OPERATOR
  }

  /** Every workspace beside the operator's is due, in the run and can be released. */
  predicate AllOthersGo(ws: Workspaces, ids: seq<Id>, now: int, stripe: bool, stuck: set<Customer>) {
    forall id :: id in ws && id != OPERATOR ==>
      && id in ids && ws[id].dueAt.Some? && ws[id].dueAt.value <= now
      && Releasable(ws[id].customer, stripe, stuck)
  }

  lemma OthersLeft(ws: Workspaces, ids: seq<Id>, now: int, stripe: bool, stuck: set<Customer>)
    requires Distinct(ids) && OPERATOR !in ids
    requires forall id :: id in ws && id != OPERATOR ==> ws[id].users > 0
    ensures var middle := ErasedAll(ws, ids, now, stripe, stuck);
            && (OnlyOperator(middle) <==> AllOthersGo(ws, ids, now, stripe, stuck))
            && (forall id :: id in middle && id != OPERATOR ==> middle[id].users > 0)
  {
    forall id | id != OPERATOR
      ensures id in ErasedAll(ws, ids, now, stripe, stuck) <==>
                id in ws && !(id in ids && IsDue(ws[id], now) && Releasable(ws[id].customer, stripe, stuck))
      ensures id in ErasedAll(ws, ids, now, stripe, stuck) ==> ErasedAll(ws, ids, now, stripe, stuck)[id].users > 0
    {
      OthersErased(ws, ids, now, stripe, stuck, id);
    }
  }

  /** What processing the operator's workspace does to what the others left. */
  lemma OperatorErased(ws: Workspaces, now: int, stripe: bool, stuck: set<Customer>)
    requires OPERATOR in ws && IsDue(ws[OPERATOR], now)
    requires forall id :: id in ws && id != OPERATOR ==> ws[id].users > 0
    ensures var after := ErasedOne(ws, OPERATOR, now, stripe, stuck);
            && (OPERATOR !in after <==> OnlyOperator(ws) && Releasable(ws[OPERATOR].customer, stripe, stuck))
            && (OPERATOR in after ==>
                  after[OPERATOR] == if OnlyOperator(ws) then Unclaimed(ws[OPERATOR]) else Withdrawn(ws[OPERATOR]))
  {
  }

  /**
   The operator's workspace comes last, so it goes in the same run as every other workspace. It is
   withdrawn when any of them stays, and given back when only its own customer is stuck.
   */
  lemma OperatorGoesLast(ws: Workspaces, ids: seq<Id>, now: int, stripe: bool, stuck: set<Customer>)
    requires Distinct(ids) && OPERATOR in ids && OPERATOR in ws && IsDue(ws[OPERATOR], now)
    requires forall id :: id in ws && id != OPERATOR ==> ws[id].users > 0
    ensures var after := ErasedAll(ws, OperatorLast(ids), now, stripe, stuck);
            && (OPERATOR !in after <==>
                  AllOthersGo(ws, ids, now, stripe, stuck) && Releasable(ws[OPERATOR].customer, stripe, stuck))
            && (OPERATOR in after ==>
                  after[OPERATOR] == if AllOthersGo(ws, ids, now, stripe, stuck) then Unclaimed(ws[OPERATOR])
                                     else Withdrawn(ws[OPERATOR]))
  {
    OperatorParts(ids);
    var others := Filter(Others(), ids);
    FilterMembers(Others(), ids);
    FilterDistinct(Others(), ids);
    assert Init(OperatorLast(ids)) == others;
    OperatorUntouched(ws, others, now, stripe, stuck);
    OthersLeft(ws, others, now, stripe, stuck);
    OperatorErased(ErasedAll(ws, others, now, stripe, stuck), now, stripe, stuck);
  }

  class DeletionService {
    var workspaces: Workspaces
    var gone: set<Customer>
    const stripe: bool

    constructor (billing: bool)
      ensures workspaces == map[] && gone == {} && stripe == billing
    {
      workspaces, gone, stripe := map[], {}, billing;
    }

    /** `request`: refused for the operator while other accounts exist. */
    method Request(id: Id, now: int, grace: nat) returns (accepted: bool)
      requires id in workspaces
      modifies this`workspaces
      ensures accepted <==> !LeavesAccountsWithoutOperator(old(workspaces), id)
      ensures workspaces == if accepted then Put(old(workspaces), id, old(workspaces)[id].(dueAt := Some(now + grace)))
                            else old(workspaces)
    {
      if LeavesAccountsWithoutOperator(workspaces, id) {
        return false;
      }
      workspaces := Put(workspaces, id, workspaces[id].(dueAt := Some(now + grace)));
      accepted := true;
    }

    /** `cancel`: refused once an erasure holds a claim. */
    method Cancel(id: Id) returns (cancelled: bool)
      requires id in workspaces
      modifies this`workspaces
      ensures cancelled <==> old(workspaces)[id].claimedAt.None?
      ensures workspaces == if cancelled then Put(old(workspaces), id, Unscheduled(old(workspaces)[id]))
                            else old(workspaces)
    {
      if workspaces[id].claimedAt.Some? {
        return false;
      }
      workspaces := Put(workspaces, id, Unscheduled(workspaces[id]));
      cancelled := true;
    }

    /** `claim`: what is due is claimed, and its customer read. */
    method Claim(id: Id, now: int) returns (claimed: Option<Option<Customer>>)
      requires id in workspaces
      modifies this`workspaces
      ensures claimed.Some? <==> old(workspaces)[id].dueAt.Some? && old(workspaces)[id].dueAt.value <= now
      ensures claimed.Some? ==> claimed.value == old(workspaces)[id].customer
      ensures workspaces == if claimed.Some? then Put(old(workspaces), id, old(workspaces)[id].(claimedAt := Some(now)))
                            else old(workspaces)
    {
      if !IsDue(workspaces[id], now) {
        return None;
      }
      workspaces := Put(workspaces, id, workspaces[id].(claimedAt := Some(now)));
      claimed := Some(workspaces[id].customer);
    }

    /** `releaseBilling`. */
    method ReleaseBilling(customer: Option<Customer>, stuck: set<Customer>) returns (released: bool)
      modifies this`gone
      ensures released <==> Releasable(customer, stripe, stuck)
      ensures gone == if released && stripe && customer.Some? then old(gone) + {customer.value} else old(gone)
    {
      if customer.None? || !stripe {
        return true;
      }
      if customer.value in stuck {
        return false;
      }
      gone := gone + {customer.value};
      released := true;
    }

    /** `finish`: deletes under lock, or withdraws, or leaves a row it no longer has a claim on. */
    method Finish(id: Id, released: Option<Customer>) returns (erased: bool)
      modifies this`workspaces
      ensures erased <==>
              && id in old(workspaces) && old(workspaces)[id].claimedAt.Some?
              && old(workspaces)[id].customer == released && !LeavesAccountsWithoutOperator(old(workspaces), id)
      ensures erased ==> workspaces == old(workspaces) - {id}
      ensures !erased ==>
                workspaces == old(workspaces)
                || (LeavesAccountsWithoutOperator(old(workspaces), id) && id in old(workspaces)
                    && workspaces == Put(old(workspaces), id, Withdrawn(old(workspaces)[id])))
    {
      if id !in workspaces || workspaces[id].claimedAt.None? {
        return false;
      }
      if workspaces[id].customer != released {
        return false;
      }
      if LeavesAccountsWithoutOperator(workspaces, id) {
        workspaces := Put(workspaces, id, Withdrawn(workspaces[id]));
        return false;
      }
      workspaces := workspaces - {id};
      erased := true;
    }

    /** `erase`: check, claim, release, finish. */
    method Erase(id: Id, now: int, stuck: set<Customer>) returns (erased: bool)
      modifies this
      ensures workspaces == ErasedOne(old(workspaces), id, now, stripe, stuck)
      ensures erased <==> id in old(workspaces) && id !in workspaces
      ensures erased ==> old(workspaces)[id].dueAt.Some? && old(workspaces)[id].dueAt.value <= now
      ensures old(gone) <= gone
      ensures erased && stripe && old(workspaces)[id].customer.Some? ==> old(workspaces)[id].customer.value in gone
    {
      if id !in workspaces {
        return false;
      }
      ghost var start := workspaces;
      if LeavesAccountsWithoutOperator(workspaces, id) {
        workspaces := Put(workspaces, id, Withdrawn(workspaces[id]));
        return false;
      }
      var claimed := Claim(id, now);
      if claimed.None? {
        return false;
      }
      assert LeavesAccountsWithoutOperator(workspaces, id) <==> LeavesAccountsWithoutOperator(start, id);
      var released := ReleaseBilling(claimed.value, stuck);
      if !released {
        workspaces := Put(workspaces, id, Unclaimed(workspaces[id]));
        return false;
      }
      erased := Finish(id, claimed.value);
      assert workspaces == start - {id};
    }

    /** `eraseDue`: every due workspace, the operator's last. */
    method EraseDue(due: seq<Id>, now: int, stuck: set<Customer>) returns (erased: seq<Id>)
      requires Distinct(due)
      requires forall id :: id in due <==>
                 id in workspaces && workspaces[id].dueAt.Some? && workspaces[id].dueAt.value <= now
      modifies this
      ensures workspaces == ErasedAll(old(workspaces), OperatorLast(due), now, stripe, stuck)
      ensures forall id :: id in erased <==> id in old(workspaces) && id !in workspaces
      ensures forall id :: id in old(workspaces) && id !in workspaces ==>
                old(workspaces)[id].dueAt.Some? && old(workspaces)[id].dueAt.value <= now
      ensures forall id :: id != OPERATOR ==>
                OthersOutcome(old(workspaces), workspaces, due, now, stripe, stuck, id)
    {
      ghost var start := workspaces;
      var order := OperatorLast(due);
      erased := [];
      for n := 0 to |order|
        invariant workspaces == ErasedAll(start, order[..n], now, stripe, stuck)
        invariant workspaces.Keys <= start.Keys
        invariant forall id :: id in erased <==> id in start && id !in workspaces
      {
        assert Init(order[..n + 1]) == order[..n] && Last(order[..n + 1]) == order[n];
        var gone := Erase(order[n], now, stuck);
        if gone {
          erased := erased + [order[n]];
        }
      }
      assert order[..|order|] == order;
      OperatorParts(due);
      forall id | id !in due
        ensures id in workspaces <==> id in start
      {
        OnlyListedErased(start, order, now, stripe, stuck, id);
      }
      forall id | id != OPERATOR
        ensures OthersOutcome(start, workspaces, due, now, stripe, stuck, id)
      {
        OthersErased(start, order, now, stripe, stuck, id);
      }
    }
  }
}
