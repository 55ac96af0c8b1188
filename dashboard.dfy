/** The dashboard's design list and its handlers (fetch, delete, duplicate),
    the card menu's open/closed state, and the "created ... ago" label. The
    network replies, the confirmation dialog and the clock are parameters. */
module Dashboard {
  import opened Text

  /** A design as the dashboard lists it. */
  datatype Card = Card(id: nat, title: string, thumbnailUrl: string, createdAt: int)

  // ---------------------------------------------------------------
  // The "created ... ago" label.
  // ---------------------------------------------------------------

  datatype Unit = Years | Months | Days | Hours | Minutes | Seconds

  /** The length of each unit in seconds; a second for `Seconds`. */
  function UnitSeconds(u: Unit): (n: nat)
    ensures n >= 1
  {
    match u
    case Years => 31536000
    case Months => 2592000
    case Days => 86400
    case Hours => 3600
    case Minutes => 60
    case Seconds => 1
  }

  function UnitWord(u: Unit): string {
    match u
    case Years => "years"
    case Months => "months"
    case Days => "days"
    case Hours => "hours"
    case Minutes => "minutes"
    case Seconds => "seconds"
  }

  datatype Ago = Ago(count: int, unit: Unit)

  /** The unit and count `timeAgo` picks for a whole number of elapsed
      seconds: the first unit, largest first, whose quotient is strictly
      greater than one, otherwise seconds. */
  function Elapsed(seconds: int): (a: Ago)
    ensures a.unit == Years <==> seconds > 31536000
    ensures a.unit == Months <==> 2592000 < seconds <= 31536000
    ensures a.unit == Days <==> 86400 < seconds <= 2592000
    ensures a.unit == Hours <==> 3600 < seconds <= 86400
    ensures a.unit == Minutes <==> 60 < seconds <= 3600
    ensures a.unit == Seconds <==> seconds <= 60
    ensures a.unit != Seconds ==> a.count >= 1 && a.count == seconds / UnitSeconds(a.unit)
    ensures a.unit == Seconds ==> a.count == seconds
  {
    if seconds > 31536000 then Ago(seconds / 31536000, Years)
    else if seconds > 2592000 then Ago(seconds / 2592000, Months)
    else if seconds > 86400 then Ago(seconds / 86400, Days)
    else if seconds > 3600 then Ago(seconds / 3600, Hours)
    else if seconds > 60 then Ago(seconds / 60, Minutes)
    else Ago(seconds, Seconds)
  }

  /** `timeAgo` as text: for a time in the past, the count reads back from
      the front of the label with `parseInt`; the label ends with the
      unit's word and "ago". */
  function TimeAgo(seconds: int): (s: string)
    ensures seconds >= 0 ==> ParseInt(s) == Some(Elapsed(seconds).count)
    ensures var tail := " " + UnitWord(Elapsed(seconds).unit) + " ago";
      |tail| < |s| && s[|s| - |tail|..] == tail
  {
    var a := Elapsed(seconds);
    var tail := " " + UnitWord(a.unit) + " ago";
    if a.count >= 0 then
      ParseIntStopsAtNonDigit(a.count, tail);
      IntToString(a.count) + tail
    else IntToString(a.count) + tail
  }

  /** Because the comparisons are strict, exactly a year reads as twelve
      months and exactly a minute as sixty seconds. */
  lemma BoundariesUseTheSmallerUnit()
    ensures Elapsed(31536000) == Ago(12, Months)
    ensures Elapsed(86400) == Ago(24, Hours)
    ensures Elapsed(60) == Ago(60, Seconds)
    ensures Elapsed(61) == Ago(1, Minutes)
  {
  }

  /** The count never exceeds the elapsed time measured in the chosen unit,
      and stays below the next unit's worth of it. */
  lemma CountBounds(seconds: int)
    requires seconds > 60
    ensures var a := Elapsed(seconds);
      a.count * UnitSeconds(a.unit) <= seconds < (a.count + 1) * UnitSeconds(a.unit)
  {
  }

  function Rank(u: Unit): nat {
    match u
    case Seconds => 0
    case Minutes => 1
    case Hours => 2
    case Days => 3
    case Months => 4
    case Years => 5
  }

  /** An older design never shows a smaller unit. */
  lemma UnitMonotone(s: int, t: int)
    requires s <= t
    ensures Rank(Elapsed(s).unit) <= Rank(Elapsed(t).unit)
  {
  }

  // ---------------------------------------------------------------
  // The design list.
  // ---------------------------------------------------------------

  /** `designs.filter((d) => d._id !== id)`. */
  function Without(ds: seq<Card>, id: nat): (r: seq<Card>)
    ensures |r| <= |ds|
    ensures forall c :: c in r <==> c in ds && c.id != id
  {
    if ds == [] then []
    else if ds[0].id == id then Without(ds[1..], id)
    else [ds[0]] + Without(ds[1..], id)
  }

  /** Filtering keeps the order: it distributes over concatenation. */
  lemma {:induction false} WithoutDistributes(a: seq<Card>, b: seq<Card>, id: nat)
    ensures Without(a + b, id) == Without(a, id) + Without(b, id)
  {
    if a == [] {
      assert a + b == b;
    } else {
      assert (a + b)[0] == a[0];
      assert (a + b)[1..] == a[1..] + b;
      WithoutDistributes(a[1..], b, id);
    }
  }

  /** A list holding no card with that id is left as it is. */
  lemma {:induction false} WithoutAbsentIsIdentity(ds: seq<Card>, id: nat)
    requires forall k :: 0 <= k < |ds| ==> ds[k].id != id
    ensures Without(ds, id) == ds
  {
    if ds != [] {
      WithoutAbsentIsIdentity(ds[1..], id);
    }
  }

  /** Deleting twice is deleting once. */
  lemma WithoutIdempotent(ds: seq<Card>, id: nat)
    ensures Without(Without(ds, id), id) == Without(ds, id)
  {
    var r := Without(ds, id);
    forall k | 0 <= k < |r| ensures r[k].id != id {
      assert r[k] in r;
    }
    WithoutAbsentIsIdentity(r, id);
  }

  /** What an awaited request ended with: it threw, or it replied with a
      `success` flag and a payload. */
  datatype Reply<T> = Threw | Replied(success: bool, payload: T)

  /** A dashboard request in flight: the card it is about and the list as
      the handler's render saw it. */
  datatype ListRequest = ListRequest(id: nat, seen: seq<Card>)

  const LoadFailed: string := "Failed to load designs. Please try again."

  class Board {
    var designs: seq<Card>
    var loading: bool
    var error: string

    constructor ()
      ensures designs == [] && loading && error == ""
    {
      designs := [];
      loading := true;
      error := "";
    }

    /** `fetchDesigns`: the error is cleared first; a successful reply
        replaces the list, a thrown request sets the message, and loading
        always ends false. */
    method FetchDesigns(reply: Reply<seq<Card>>)
      modifies this
      ensures !loading
      ensures error == if reply.Threw? then LoadFailed else ""
      ensures designs == if reply.Replied? && reply.success then reply.payload else old(designs)
    {
      loading := true;
      error := "";
      if reply.Threw? {
        error := LoadFailed;
      } else if reply.success {
        designs := reply.payload;
      }
      loading := false;
    }

    /** `handleDeleteDesign`, up to the `await`: a confirmed delete sends the
        request, and the handler keeps the `designs` of the render it was
        created in, which is the list as it stands now. */
    method DeleteDesign(id: nat, confirmed: bool) returns (req: Option<ListRequest>)
      ensures req.Some? <==> confirmed
      ensures req.Some? ==> req.value == ListRequest(id, designs)
    {
      if !confirmed {
        return None;
      }
      return Some(ListRequest(id, designs));
    }

    /** After the delete request settles: unless it threw, the list becomes
        the kept list without the card, whatever happened in between. */
    method DeleteSettled(req: ListRequest, requestSucceeded: bool)
      modifies this`designs
      ensures requestSucceeded ==> designs == Without(req.seen, req.id)
      ensures !requestSucceeded ==> designs == old(designs)
    {
      if requestSucceeded {
        designs := Without(req.seen, req.id);
      }
    }

    /** `handleDuplicateDesign`, up to the `await`: the request is sent, and
        the handler keeps the current list. */
    method DuplicateDesign(id: nat) returns (req: ListRequest)
      ensures req.id == id && req.seen == designs
    {
      return ListRequest(id, designs);
    }

    /** After the duplicate request settles: a successful reply puts the copy
        in front of the kept list. */
    method DuplicateSettled(req: ListRequest, reply: Reply<Card>)
      modifies this`designs
      ensures reply.Replied? && reply.success ==> designs == [reply.payload] + req.seen
      ensures !(reply.Replied? && reply.success) ==> designs == old(designs)
    {
      if reply.Replied? && reply.success {
        designs := [reply.payload] + req.seen;
      }
    }
  }

  /** Two deletes that overlap: both handlers keep the same list, so the
      second to settle writes that list without its own card only, and the
      card the first one deleted is back on the board. */
  lemma OverlappingDeletesRestoreCard(ds: seq<Card>, first: nat, second: nat, k: nat)
    requires k < |ds| && ds[k].id == first && first != second
    ensures forall c :: c in Without(ds, first) ==> c.id != first
    ensures ds[k] in Without(ds, second)
  {
    assert ds[k] in ds;
  }

  /** A duplicate that settles after an overlapping delete puts the deleted
      card back, because it prepends the copy to the list kept before. */
  lemma DuplicateAfterDeleteRestoresCard(ds: seq<Card>, deleted: nat, k: nat, copy: Card)
    requires k < |ds| && ds[k].id == deleted
    ensures ds[k] !in Without(ds, deleted)
    ensures ds[k] in [copy] + ds
  {
  }

  // ---------------------------------------------------------------
  // The card menu.
  // ---------------------------------------------------------------

  /** Where a mouse press lands relative to the menu button and the menu. */
  datatype Target = OnButton | OnMenu | Outside

  datatype MenuEvent = ButtonClick | ItemClick | MouseDown(target: Target)

  /** The menu state after an event. A press outside closes the menu; a
      press on the button or in the menu leaves it to the click that follows. */
  function MenuAfter(open: bool, e: MenuEvent): (r: bool)
    ensures e == ButtonClick ==> r == !open
    ensures e == ItemClick ==> !r
    ensures e == MouseDown(Outside) ==> !r
    ensures e.MouseDown? && e.target != Outside ==> r == open
  {
    match e
    case ButtonClick => !open
    case ItemClick => false
    case MouseDown(t) => if t == Outside then false else open
  }

  /** The button toggles: two clicks restore the state; a closed menu only
      opens through the button. */
  lemma MenuOpensOnlyByButton(open: bool, e: MenuEvent)
    ensures MenuAfter(MenuAfter(open, ButtonClick), ButtonClick) == open
    ensures !open && MenuAfter(open, e) ==> e == ButtonClick
  {
  }

  class CardMenu {
    var open: bool

    constructor ()
      ensures !open
    {
      open := false;
    }

    method Handle(e: MenuEvent)
      modifies this
      ensures open == MenuAfter(old(open), e)
    {
      match e
      case ButtonClick => open := !open;
      case ItemClick => open := false;
      case MouseDown(t) =>
        if t == Outside && open {
          open := false;
        }
    }
  }
}
