/** The lists of log probabilities as objects: a report hands out references, and the client
    extends what it holds in place (vllm/outputs.py).  The objects follow SharedLogprobs. */
module SharedLists {
  import opened Wrappers
  import opened SharedLogprobs

  class LogprobList {
    var items: seq<real>

    constructor (items: seq<real>)
      ensures this.items == items
    {
      this.items := items;
    }
  }

  /** A sequence and its client: references to lists, which a report may hand out. */
  class Stream {
    var own: LogprobList
    var pending: seq<LogprobList?>
    var started: bool
    var held: LogprobList?
    var failed: bool
    ghost var view: Lists

    ghost predicate Denotes(o: LogprobList?, m: List)
      reads this, o
    {
      match m
      case Absent => o == null
      case Shared => o == own
      case Own(items) => o != null && o != own && o.items == items
    }

    /** Two completions share a list only if it is the sequence's own. */
    ghost predicate Apart()
      reads this
    {
      && (forall a, b :: 0 <= a < b < |pending| && pending[a] == pending[b] && pending[a] != null ==> pending[a] == own)
      && (held != null ==> forall a :: 0 <= a < |pending| && pending[a] == held ==> held == own)
    }

    ghost predicate Valid()
      reads this, own, held, pending
    {
      && Apart() && view.list == own.items && view.failed == failed
      && |view.pending| == |pending| && (forall j :: 0 <= j < |pending| ==> Denotes(pending[j], view.pending[j]))
      && (if started then view.held.Some? && Denotes(held, view.held.value) else view.held.None? && held == null)
    }

    constructor ()
      ensures Valid() && view == Lists([], [], None, false) && fresh(own)
    {
      own := new LogprobList([]);
      pending, started, held, failed := [], false, null, false;
      view := Lists([], [], None, false);
    }

    /** A token is appended to the sequence. */
    method Append(x: real)
      requires Valid()
      modifies this`view, own
      ensures Valid() && view == old(view).(list := old(view.list) + [x])
    {
      own.items := own.items + [x];
      view := view.(list := view.list + [x]);
    }

    /** The log probabilities of a completion with `n` new tokens: a new list, or the own one. */
    method LogprobsOf(wanted: bool, n: nat) returns (r: LogprobList?)
      requires Valid()
      ensures r != null && r != own ==> fresh(r)
      ensures Denotes(r, Carried(wanted, view.list, n))
    {
      r := if wanted then own else null;
      if r != null && r.items != [] {
        if n > 0 {
          r := new LogprobList(LastOf(r.items, n));
        } else {
          r := null;
        }
      }
    }

    /** A report. */
    method Send(wanted: bool, n: nat)
      requires Valid()
      modifies this`pending, this`view
      ensures Valid() && view == old(view).(pending := old(view.pending) + [Carried(wanted, old(view.list), n)])
    {
      var r := LogprobsOf(wanted, n);
      pending := pending + [r];
      view := view.(pending := view.pending + [Carried(wanted, view.list, n)]);
    }

    /** The client adds the next completion to the one that it holds. */
    method Add()
      requires Valid()
      modifies this`pending, this`started, this`held, this`failed, this`view, held
      ensures Valid() && view == AddNext(old(view))
    {
      if failed || pending == [] {
        return;
      }
      var next := pending[0];
      view := AddNext(view);
      pending := pending[1..];
      if !started {
        started, held := true, next;
      } else if next != null && next.items != [] {
        if held == null {
          failed := true;
        } else {
          held.items := held.items + next.items;
        }
      }
    }
  }
}
