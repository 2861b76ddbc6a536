/** How a widget reacts to new dashboard options (`componentWillReceiveProps`):
    it stores them and asks the channel for a redraw only when the dashboard
    is online and the options differ from the ones it last stored. */
module LiveOptions {
  import opened Values

  /** Options a widget can hold: the initial empty ones, or options seen while
      the dashboard was online. */
  predicate Storable(o: RequestOptions) {
    o == map[] || Online(o)
  }

  /** The options a widget keeps after an update, and whether it redraws. */
  datatype Reaction = Reaction(stored: RequestOptions, redraw: bool)

  function ReactToOptions(stored: RequestOptions, next: RequestOptions): (r: Reaction)
    // a redraw is requested exactly for an online change
    ensures r.redraw <==> Online(next) && next != stored
    // online options are kept afterwards
    ensures Online(next) ==> r.stored == next
    // offline options are neither stored nor redrawn for
    ensures !Online(next) ==> r == Reaction(stored, false)
    // only options seen while online are ever stored
    ensures Storable(stored) ==> Storable(r.stored)
  {
    if Online(next) && next != stored then Reaction(next, true) else Reaction(stored, false)
  }

  /** Delivering the same options twice redraws at most once. */
  lemma SameOptionsTwice(stored: RequestOptions, next: RequestOptions)
    ensures !ReactToOptions(ReactToOptions(stored, next).stored, next).redraw
  {
  }

  /** The options kept and the number of redraws after a sequence of updates. */
  datatype Delivery = Delivery(stored: RequestOptions, redraws: nat)

  function Deliver(stored: RequestOptions, updates: seq<RequestOptions>): (d: Delivery)
    decreases |updates|
  {
    if updates == [] then Delivery(stored, 0)
    else
      var r := ReactToOptions(stored, updates[0]);
      var rest := Deliver(r.stored, updates[1..]);
      Delivery(rest.stored, rest.redraws + if r.redraw then 1 else 0)
  }

  /** The number of updates that differ from the update before them (the
      first one compared with `prev`). */
  function Changes(prev: RequestOptions, updates: seq<RequestOptions>): (n: nat)
    decreases |updates|
  {
    if updates == [] then 0
    else Changes(updates[0], updates[1..]) + if updates[0] != prev then 1 else 0
  }

  /** Generalisation of RedrawsAtMostChanges: the last update seen is either
      the stored one or was offline. */
  lemma {:induction false} RedrawsAtMostChangesFrom(stored: RequestOptions, prev: RequestOptions, updates: seq<RequestOptions>)
    requires prev == stored || !Online(prev)
    ensures Deliver(stored, updates).redraws <= Changes(prev, updates)
    decreases |updates|
  {
    if updates != [] {
      var r := ReactToOptions(stored, updates[0]);
      RedrawsAtMostChangesFrom(r.stored, updates[0], updates[1..]);
    }
  }

  /** Redraws happen at most once per actual change of the options. */
  lemma RedrawsAtMostChanges(stored: RequestOptions, updates: seq<RequestOptions>)
    ensures Deliver(stored, updates).redraws <= Changes(stored, updates)
  {
    RedrawsAtMostChangesFrom(stored, stored, updates);
  }

  /** While offline nothing is redrawn and nothing is stored. */
  lemma {:induction false} OfflineNoRedraw(stored: RequestOptions, updates: seq<RequestOptions>)
    requires forall i :: 0 <= i < |updates| ==> !Online(updates[i])
    ensures Deliver(stored, updates) == Delivery(stored, 0)
    decreases |updates|
  {
    if updates != [] {
      assert !Online(updates[0]);
      OfflineNoRedraw(stored, updates[1..]);
    }
  }

  /** After some update was online, the kept options are the last online ones. */
  lemma {:induction false} DeliverKeepsLastOnline(stored: RequestOptions, updates: seq<RequestOptions>, k: nat)
    requires k < |updates| && Online(updates[k])
    requires forall i :: k < i < |updates| ==> !Online(updates[i])
    ensures Deliver(stored, updates).stored == updates[k]
    decreases |updates|
  {
    var r := ReactToOptions(stored, updates[0]);
    if k == 0 {
      OfflineNoRedraw(r.stored, updates[1..]);
    } else {
      DeliverKeepsLastOnline(r.stored, updates[1..], k - 1);
    }
  }
}
