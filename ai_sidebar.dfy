/**
 * The AI sidebar's status log: update events from the live channel are
 * prepended to a log, each entry has a "show more" flag, and a long status is
 * cut to its first 300 characters while its flag is off.
 */
module AiStatus {

  /** The payload of an `update` event. `image` is the serialized canvas document. */
  datatype Update = Update(title: string, status: string, image: string)

  /** The two event types the live channel sends. */
  datatype Event = KeepAlive(data: string) | UpdateEvent(update: Update)

  /** Statuses longer than this are collapsed by default. */
  const TRUNCATE_AT: nat := 300

  /**
   * The status text as displayed: a status over 300 characters shows its first
   * 300 while collapsed; otherwise it is shown whole.
   */
  function Shown(status: string, expanded: bool): (r: string)
    ensures r <= status
    ensures |r| == if |status| > TRUNCATE_AT && !expanded then TRUNCATE_AT else |status|
  {
    if |status| > TRUNCATE_AT && !expanded then status[..TRUNCATE_AT] else status
  }

  /** Expanding changes what is shown exactly for statuses over 300 characters. */
  lemma ExpandingRevealsLongStatus(status: string)
    ensures Shown(status, true) == status
    ensures Shown(status, false) != Shown(status, true) <==> |status| > TRUNCATE_AT
  {
  }

  /** The sidebar's log state. */
  class StatusLog {
    /** Received updates, newest first. */
    var updates: seq<Update>
    /** One flag per entry, plus the initial trailing flag. */
    var showMore: seq<bool>

    /** The flag list stays exactly one longer than the log. */
    predicate Valid()
      reads this
    {
      |showMore| == |updates| + 1
    }

    constructor ()
      ensures Valid() && updates == [] && showMore == [false]
    {
      updates := [];
      showMore := [false];
    }

    /** What entry `i` of the log shows as its status. */
    function ShownStatus(i: nat): (s: string)
      reads this
      requires i < |updates| && i < |showMore|
      ensures s <= updates[i].status
      ensures showMore[i] ==> s == updates[i].status
      ensures |updates[i].status| <= TRUNCATE_AT ==> s == updates[i].status
      ensures |updates[i].status| > TRUNCATE_AT && !showMore[i] ==> s == updates[i].status[..TRUNCATE_AT]
    {
      Shown(updates[i].status, showMore[i])
    }

    /**
     * An event arrives. An update goes to the front of the log with a fresh
     * collapsed flag; a keep-alive changes nothing.
     */
    method OnEvent(e: Event)
      modifies this
      // the prepend keeps the flags in step with the log exactly when they were
      ensures Valid() <==> old(Valid())
      ensures e.KeepAlive? ==> updates == old(updates) && showMore == old(showMore)
      ensures e.UpdateEvent? ==> updates == [e.update] + old(updates) && showMore == [false] + old(showMore)
      // older entries keep their place relative to each other and what they show
      ensures e.UpdateEvent? && old(Valid()) ==> forall k :: 0 <= k < |old(updates)| ==> ShownStatus(k + 1) == old(ShownStatus(k))
    {
      if e.UpdateEvent? {
        updates := [e.update] + updates;
        showMore := [false] + showMore;
      }
    }

    /**
     * The "Show More" / "Show Less" click handler as written: it flips flag `i`
     * of the list `rendered` it was rendered with and writes that whole copy
     * back, replacing whatever the flags have become since.
     */
    method ToggleRendered(rendered: seq<bool>, i: nat)
      requires i < |rendered|
      modifies this`showMore
      ensures |showMore| == |rendered|
      ensures showMore[i] == !rendered[i]
      ensures forall k :: 0 <= k < |showMore| && k != i ==> showMore[k] == rendered[k]
      // the one-longer rule survives exactly when no update arrived since that render
      ensures Valid() <==> |rendered| == |updates| + 1
    {
      showMore := rendered[i := !rendered[i]];
    }

    /** A click on entry `i` when the last render is up to date flips that entry's flag only. */
    method ToggleShowMore(i: nat)
      requires Valid() && i < |updates|
      modifies this`showMore
      ensures Valid()
      ensures |showMore| == |old(showMore)|
      ensures showMore[i] == !old(showMore)[i]
      ensures forall k :: 0 <= k < |showMore| && k != i ==> showMore[k] == old(showMore)[k]
    {
      ToggleRendered(showMore, i);
    }
  }

  /**
   * A click on the entry of `first`, rendered before `second` arrived, writes
   * back the flags of that render: the flag added for `second` is lost, the
   * flags end as long as the log, and `first`'s expanded flag now sits on
   * `second`.
   */
  method StaleToggleDropsFlag(first: Update, second: Update) returns (log: StatusLog)
    ensures log.updates == [second, first]
    ensures log.showMore == [true, false]
    ensures !log.Valid()
  {
    log := new StatusLog();
    log.OnEvent(UpdateEvent(first));
    var rendered := log.showMore;
    log.OnEvent(UpdateEvent(second));
    log.ToggleRendered(rendered, 0);
  }
}
