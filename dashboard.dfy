/**
 * The administrator dashboard controller: per-group toggle counters, the
 * per-bill edit sub-state, and the part of the page they drive (the three
 * group containers, the cards' click handlers and highlight, the right
 * panel), plus the calls it makes to the bill store and to navigation.
 *
 * The transitions are stated as functions on a `View` snapshot; the class
 * `Dashboard` holds the same state in fields and its methods update them
 * step by step, as the controller does.
 */
module DashboardController {
  import opened Wrappers
  import opened JsValues
  import opened DashboardHelpers

  /** The right-hand panel: the big-billed placeholder icon, or the edit form of a bill
      whose view, accept and refuse buttons carry `buttonHandlers` click handlers each. */
  datatype Panel = Placeholder | Form(bill: Record, buttonHandlers: nat)

  /**
   * The part of the page the controller drives: the cards shown in each
   * group container, the click handlers bound on the card of each bill id
   * present on the page, the ids of the cards drawn as selected, and the
   * right-hand panel.
   */
  datatype Page = Page(
    containers: map<int, seq<CardView>>,
    handlers: map<Value, nat>,
    highlighted: set<Value>,
    panel: Panel)

  /**
   * A snapshot of the controller: `counters` (toggle counter per group
   * index), `counter` and `id` (the edit sub-state), and the page.
   */
  datatype View = View(counters: map<int, nat>, counter: Option<nat>, id: Value, page: Page)

  /** Route keys handed to the navigation callback. */
  datatype Route = DashboardRoute

  /** A rejected store request. */
  datatype StoreError = StoreError(message: string)

  /** Calls made to the bill store and to the navigation callback, in order. */
  datatype Call = ListBills | Update(selector: Value, data: Record) | Navigate(route: Route)

  /** The dashboard as first rendered: three empty containers, no card, the placeholder. */
  function Initial(): View
  {
    View(map[], None, Undefined, Page(map[1 := [], 2 := [], 3 := []], map[], {}, Placeholder))
  }

  /** `this.counters[index]`, with a missing (falsy) entry read as 0. */
  function CounterOf(counters: map<int, nat>, index: int): nat
  {
    if index in counters then counters[index] else 0
  }

  function CardIds(content: seq<CardView>): set<Value>
  {
    set j | 0 <= j < |content| :: content[j].id
  }

  /** Ids of the cards present on the page. */
  function RenderedIds(containers: map<int, seq<CardView>>): set<Value>
  {
    set i, j | i in containers && 0 <= j < |containers[i]| :: containers[i][j].id
  }

  function BillIds(bills: seq<Record>): set<Value>
  {
    set i | 0 <= i < |bills| :: Get(bills[i], "id")
  }

  /**
   * The three containers exist; the cards on the page, and only they,
   * have handler counts, each exactly one; only cards on the page are
   * highlighted; the form's buttons carry one handler each.
   */
  ghost predicate PageConsistent(p: Page)
  {
    && p.containers.Keys == {1, 2, 3}
    && p.handlers.Keys == RenderedIds(p.containers)
    && (forall k | k in p.handlers :: p.handlers[k] == 1)
    && p.highlighted <= RenderedIds(p.containers)
    && (p.panel.Form? ==> p.panel.buttonHandlers == 1)
  }

  /** What every reachable view satisfies: a consistent page, and a group whose counter is even shows no card. */
  ghost predicate Consistent(v: View)
  {
    && PageConsistent(v.page)
    && CollapsedWhenEven(v.counters, v.page.containers)
  }

  /** A group whose counter is even shows no card. */
  ghost predicate CollapsedWhenEven(counters: map<int, nat>, containers: map<int, seq<CardView>>)
  {
    forall i | i in containers && CounterOf(counters, i) % 2 == 0 :: containers[i] == []
  }

  lemma InitialConsistent()
    ensures Consistent(Initial())
  {
    assert RenderedIds(Initial().page.containers) == {};
  }

  // ---------------------------------------------------------------------
  // Replacing a container's contents, binding card handlers

  /**
   * `$('#status-bills-container' + index).html(content)`: the container's
   * cards are replaced by new card elements, which carry no handler and are
   * not highlighted; cards no longer on the page lose theirs. A missing
   * container leaves the page as it is.
   */
  function Render(p: Page, index: int, content: seq<CardView>): (r: Page)
    ensures index !in p.containers ==> r == p
    ensures index in p.containers ==> r.containers == p.containers[index := content]
    ensures r.panel == p.panel
  {
    if index !in p.containers then p
    else
      var cs := p.containers[index := content];
      var newIds := CardIds(content);
      var rendered := RenderedIds(cs);
      p.(containers := cs,
         handlers := map k | k in rendered :: if k in newIds || k !in p.handlers then 0 else p.handlers[k],
         highlighted := p.highlighted * rendered - newIds)
  }

  /** `.off('click')` on the card of bill id `k` (no card: nothing happens). */
  function Off(h: map<Value, nat>, k: Value): (r: map<Value, nat>)
    ensures r.Keys == h.Keys
  {
    if k in h then h[k := 0] else h
  }

  /** `.on('click', ...)` on the card of bill id `k`. */
  function On(h: map<Value, nat>, k: Value): (r: map<Value, nat>)
    ensures r.Keys == h.Keys
  {
    if k in h then h[k := h[k] + 1] else h
  }

  /** Unbinding before binding leaves a card with exactly one handler, whatever it had; a missing card stays missing. */
  lemma OffOnOnce(h: map<Value, nat>, k: Value)
    ensures k in h ==> On(Off(h, k), k) == h[k := 1]
    ensures k !in h ==> On(Off(h, k), k) == h
  {
  }

  /** Unbinding then binding the edit handler on the card of every bill, in order. */
  function Rebind(h: map<Value, nat>, bills: seq<Record>): map<Value, nat>
    decreases |bills|
  {
    if bills == [] then h
    else
      var k := Get(bills[|bills| - 1], "id");
      On(Off(Rebind(h, bills[..|bills| - 1]), k), k)
  }

  /** Every card of a listed bill with exactly one handler; other cards as they were. */
  function Rebound(h: map<Value, nat>, bills: seq<Record>): (r: map<Value, nat>)
    ensures r.Keys == h.Keys
  {
    map k | k in h :: if k in BillIds(bills) then 1 else h[k]
  }

  /** Unbinding before binding means a card never collects a second handler, however often it is re-bound. */
  lemma {:induction false} RebindCounts(h: map<Value, nat>, bills: seq<Record>)
    ensures Rebind(h, bills) == Rebound(h, bills)
    decreases |bills|
  {
    if bills != [] {
      var front := bills[..|bills| - 1];
      var k := Get(bills[|bills| - 1], "id");
      RebindCounts(h, front);
      assert BillIds(bills) == BillIds(front) + {k} by {
        assert forall i :: 0 <= i < |front| ==> front[i] == bills[i];
      }
      OffOnOnce(Rebound(h, front), k);
    }
  }


  /** A card on the page after a render either was just rendered or was there before. */
  lemma RenderedAfter(cs: map<int, seq<CardView>>, index: int, content: seq<CardView>, k: Value)
    requires index in cs
    requires k in RenderedIds(cs[index := content]) && k !in CardIds(content)
    ensures k in RenderedIds(cs)
  {
    var cs': map<int, seq<CardView>> := cs[index := content];
    var i: int, j: int :| i in cs' && 0 <= j < |cs'[i]| && cs'[i][j].id == k;
    assert cs[i][j].id == k;
  }

  lemma RenderedGrows(cs: map<int, seq<CardView>>, index: int, content: seq<CardView>)
    requires index in cs
    ensures CardIds(content) <= RenderedIds(cs[index := content])
  {
    forall k | k in CardIds(content)
      ensures k in RenderedIds(cs[index := content])
    {
      var j :| 0 <= j < |content| && content[j].id == k;
      assert cs[index := content][index][j].id == k;
    }
  }

  /** After a render the new cards have no handler yet and every other card on the page still has one. */
  lemma RenderConsistent(p: Page, index: int, content: seq<CardView>)
    requires PageConsistent(p) && index in p.containers
    ensures var r := Render(p, index, content);
            && r.containers.Keys == {1, 2, 3}
            && r.handlers.Keys == RenderedIds(r.containers)
            && (forall k | k in r.handlers :: r.handlers[k] == if k in CardIds(content) then 0 else 1)
            && r.highlighted <= RenderedIds(r.containers)
  {
    var r := Render(p, index, content);
    forall k | k in r.handlers
      ensures r.handlers[k] == if k in CardIds(content) then 0 else 1
    {
      if k !in CardIds(content) {
        RenderedAfter(p.containers, index, content, k);
      }
    }
  }

  // ---------------------------------------------------------------------
  // handleShowTickets

  /** The bills a group shows: `filteredBills(bills, getStatus(index))`. */
  function ShownBills(bills: seq<Record>, index: int, mode: Mode): seq<Record>
  {
    FilteredBills(Some(bills), StatusValue(GetStatus(index)), mode)
  }

  /** Expanding a group renders its bills' cards, which needs a string email on each. */
  predicate CanShow(v: View, bills: seq<Record>, index: int, mode: Mode)
  {
    CounterOf(v.counters, index) % 2 == 0 ==> AllTextEmails(ShownBills(bills, index, mode))
  }

  /** Expanding: render the group's cards, then unbind and rebind the edit handler on every bill's card. */
  function Expand(p: Page, index: int, content: seq<CardView>, bills: seq<Record>): Page
  {
    var r := Render(p, index, content);
    r.(handlers := Rebound(r.handlers, bills))
  }

  /** The group's counter moved by one, the other counters as they were. */
  function Toggle(counters: map<int, nat>, index: int): map<int, nat>
  {
    counters[index := CounterOf(counters, index) + 1]
  }

  /** The page after a toggle: expanded from an even counter, emptied from an odd one. */
  function ShowPage(v: View, bills: seq<Record>, index: int, mode: Mode): Page
    requires CanShow(v, bills, index, mode)
  {
    if CounterOf(v.counters, index) % 2 == 0 then
      Expand(v.page, index, Cards(Some(ShownBills(bills, index, mode))), bills)
    else
      Render(v.page, index, [])
  }

  /** `handleShowTickets(e, bills, index)` on a snapshot. */
  function ShowTickets(v: View, bills: seq<Record>, index: int, mode: Mode): (r: View)
    requires CanShow(v, bills, index, mode)
    ensures r.counters.Keys == v.counters.Keys + {index}
    ensures CounterOf(r.counters, index) == CounterOf(v.counters, index) + 1
    ensures r.counter == v.counter && r.id == v.id && r.page.panel == v.page.panel
    ensures index !in v.page.containers ==> r.page.containers == v.page.containers
  {
    v.(counters := Toggle(v.counters, index), page := ShowPage(v, bills, index, mode))
  }

  lemma CardIdsOfShown(bills: seq<Record>, index: int, mode: Mode)
    requires AllTextEmails(ShownBills(bills, index, mode))
    ensures CardIds(Cards(Some(ShownBills(bills, index, mode)))) <= BillIds(bills)
  {
    var shown := ShownBills(bills, index, mode);
    FilterCounts(bills, StatusValue(GetStatus(index)), mode);
    var content := Cards(Some(shown));
    forall j | 0 <= j < |content|
      ensures content[j].id in BillIds(bills)
    {
      assert shown[j] in bills;
      var i :| 0 <= i < |bills| && bills[i] == shown[j];
      assert Get(bills[i], "id") in BillIds(bills);
    }
  }

  lemma ExpandConsistent(p: Page, index: int, content: seq<CardView>, bills: seq<Record>)
    requires PageConsistent(p)
    requires CardIds(content) <= BillIds(bills)
    ensures PageConsistent(Expand(p, index, content, bills))
  {
    if index in p.containers {
      RenderConsistent(p, index, content);
    }
  }

  lemma CollapseConsistent(p: Page, index: int)
    requires PageConsistent(p)
    ensures PageConsistent(Render(p, index, []))
  {
    if index in p.containers {
      RenderConsistent(p, index, []);
      assert CardIds([]) == {};
    }
  }

  /** Toggling a group whose container is then emptied whenever its counter becomes even keeps the groups collapsed when even. */
  lemma ToggleCollapsed(counters: map<int, nat>, cs: map<int, seq<CardView>>, index: int, content: seq<CardView>)
    requires CollapsedWhenEven(counters, cs)
    requires CounterOf(counters, index) % 2 == 1 ==> content == []
    ensures CollapsedWhenEven(Toggle(counters, index), if index in cs then cs[index := content] else cs)
  {
    var t := Toggle(counters, index);
    assert forall i | i != index :: CounterOf(t, i) == CounterOf(counters, i);
  }

  /** Toggling keeps a consistent view consistent. */
  lemma ShowTicketsConsistent(v: View, bills: seq<Record>, index: int, mode: Mode)
    requires Consistent(v) && CanShow(v, bills, index, mode)
    ensures Consistent(ShowTickets(v, bills, index, mode))
  {
    var c := CounterOf(v.counters, index);
    if c % 2 == 0 {
      var content := Cards(Some(ShownBills(bills, index, mode)));
      CardIdsOfShown(bills, index, mode);
      ExpandConsistent(v.page, index, content, bills);
      ToggleCollapsed(v.counters, v.page.containers, index, content);
    } else {
      CollapseConsistent(v.page, index);
      ToggleCollapsed(v.counters, v.page.containers, index, []);
    }
  }

  /** The counter and the containers after a toggle, whatever the rest of the view. */
  lemma ShowTicketsGroup(v: View, bills: seq<Record>, index: int, mode: Mode)
    requires CanShow(v, bills, index, mode)
    ensures var r := ShowTickets(v, bills, index, mode);
            var c := CounterOf(v.counters, index);
            && r.counters == v.counters[index := c + 1]
            && CounterOf(r.counters, index) == c + 1
            && r.counter == v.counter && r.id == v.id && r.page.panel == v.page.panel
            && (index !in v.page.containers ==> r.page.containers == v.page.containers)
            && (index in v.page.containers ==>
                  r.page.containers == v.page.containers[index := if c % 2 == 0 then Cards(Some(ShownBills(bills, index, mode))) else []])
  {
  }

  /**
   * What one activation of a group's arrow does: only that group's counter
   * moves, by one; an even counter expands the group with the cards of its
   * bills, each of which then has exactly one click handler; an odd counter
   * collapses it; the edit sub-state and the panel are untouched.
   */
  lemma ShowTicketsEffect(v: View, bills: seq<Record>, index: int, mode: Mode)
    requires Consistent(v) && CanShow(v, bills, index, mode)
    ensures var r := ShowTickets(v, bills, index, mode);
            var c := CounterOf(v.counters, index);
            && Consistent(r)
            && r.counters.Keys == v.counters.Keys + {index}
            && CounterOf(r.counters, index) == c + 1
            && (forall j | j in v.counters && j != index :: r.counters[j] == v.counters[j])
            && r.counter == v.counter && r.id == v.id && r.page.panel == v.page.panel
            && (index !in v.page.containers ==> r.page.containers == v.page.containers)
            && (c % 2 == 0 && index in v.page.containers ==>
                  && r.page.containers == v.page.containers[index := Cards(Some(ShownBills(bills, index, mode)))]
                  && (forall j | 0 <= j < |r.page.containers[index]| ::
                        r.page.containers[index][j].id in r.page.handlers
                        && r.page.handlers[r.page.containers[index][j].id] == 1))
            && (c % 2 == 1 && index in v.page.containers ==>
                  r.page.containers == v.page.containers[index := []])
            && (forall i | 0 <= i < |bills| && Get(bills[i], "id") in RenderedIds(r.page.containers) ::
                  Get(bills[i], "id") in r.page.handlers && r.page.handlers[Get(bills[i], "id")] == 1)
  {
    ShowTicketsConsistent(v, bills, index, mode);
    ShowTicketsGroup(v, bills, index, mode);
    var r := ShowTickets(v, bills, index, mode);
    if CounterOf(v.counters, index) % 2 == 0 && index in v.page.containers {
      RenderedGrows(v.page.containers, index, r.page.containers[index]);
    }
  }

  /**
   * The arrows are bound once, with one bill list: every expanded group
   * (odd counter) shows the cards of that list's bills of its status.
   */
  ghost predicate ShowsBills(v: View, bills: seq<Record>, mode: Mode)
  {
    forall i | i in v.page.containers && CounterOf(v.counters, i) % 2 == 1 ::
      && AllTextEmails(ShownBills(bills, i, mode))
      && v.page.containers[i] == Cards(Some(ShownBills(bills, i, mode)))
  }

  lemma InitialShowsBills(bills: seq<Record>, mode: Mode)
    ensures ShowsBills(Initial(), bills, mode)
  {
  }

  /** Toggling with the list the arrows were bound with keeps every expanded group showing its bills. */
  lemma ShowTicketsShowsBills(v: View, bills: seq<Record>, index: int, mode: Mode)
    requires ShowsBills(v, bills, mode) && CanShow(v, bills, index, mode)
    ensures ShowsBills(ShowTickets(v, bills, index, mode), bills, mode)
  {
    var r := ShowTickets(v, bills, index, mode);
    ShowTicketsGroup(v, bills, index, mode);
    forall i | i in r.page.containers && CounterOf(r.counters, i) % 2 == 1
      ensures && AllTextEmails(ShownBills(bills, i, mode))
              && r.page.containers[i] == Cards(Some(ShownBills(bills, i, mode)))
    {
      if i != index {
        assert CounterOf(r.counters, i) == CounterOf(v.counters, i);
      }
    }
  }

  /**
   * Two activations of the same arrow add two to its counter and give the
   * containers back exactly as they were, whether the group started
   * collapsed or expanded.
   */
  lemma ShowTicketsTwice(v: View, bills: seq<Record>, index: int, mode: Mode)
    requires CollapsedWhenEven(v.counters, v.page.containers) && ShowsBills(v, bills, mode)
    requires AllTextEmails(ShownBills(bills, index, mode))
    ensures var r1 := ShowTickets(v, bills, index, mode);
            && CanShow(r1, bills, index, mode)
            && var r2 := ShowTickets(r1, bills, index, mode);
            && CounterOf(r2.counters, index) == CounterOf(v.counters, index) + 2
            && r2.page.containers == v.page.containers
  {
    var r1 := ShowTickets(v, bills, index, mode);
    ShowTicketsGroup(v, bills, index, mode);
    assert CanShow(r1, bills, index, mode);
    var r2 := ShowTickets(r1, bills, index, mode);
    ShowTicketsGroup(r1, bills, index, mode);
    var shown := Cards(Some(ShownBills(bills, index, mode)));
    var c := CounterOf(v.counters, index);
    assert CounterOf(r2.counters, index) == c + 2;
    TwiceContainers(v.page.containers, r1.page.containers, r2.page.containers, index, c, shown);
  }

  lemma TwiceContainers(cs: map<int, seq<CardView>>, cs1: map<int, seq<CardView>>, cs2: map<int, seq<CardView>>,
                        index: int, c: nat, shown: seq<CardView>)
    requires index !in cs ==> cs1 == cs && cs2 == cs1
    requires index in cs ==> cs1 == cs[index := if c % 2 == 0 then shown else []]
    requires index in cs ==> cs2 == cs1[index := if (c + 1) % 2 == 0 then shown else []]
    requires index in cs && c % 2 == 0 ==> cs[index] == []
    requires index in cs && c % 2 == 1 ==> cs[index] == shown
    ensures cs2 == cs
  {
  }

  // ---------------------------------------------------------------------
  // handleEditTicket

  /** `.click(...)` on the view, accept and refuse buttons, which exist only while the form is shown. */
  function BindButtons(p: Panel): (r: Panel)
    ensures p.Placeholder? ==> r == Placeholder
    ensures p.Form? ==> r.Form? && r.bill == p.bill && r.buttonHandlers == p.buttonHandlers + 1
  {
    if p.Form? then Form(p.bill, p.buttonHandlers + 1) else p
  }

  /** The edit counter in effect for a click on the card of `bill`: reset when another bill was selected. */
  function EditCounter(v: View, bill: Record): nat
  {
    if v.counter.None? || v.id != Get(bill, "id") then 0 else v.counter.value
  }

  /** Highlighting the selected card (when it is on the page) after clearing the cards of `bills`. */
  function Select(p: Page, bill: Record, bills: seq<Record>): Page
  {
    var cleared := p.highlighted - BillIds(bills);
    var bid := Get(bill, "id");
    p.(highlighted := if bid in RenderedIds(p.containers) then cleared + {bid} else cleared,
       panel := BindButtons(Form(bill, 0)))
  }

  /** Clearing the selected card's highlight and showing the placeholder. */
  function Deselect(p: Page, bill: Record): Page
  {
    p.(highlighted := p.highlighted - {Get(bill, "id")}, panel := BindButtons(Placeholder))
  }

  /** `handleEditTicket(e, bill, bills)` on a snapshot. */
  function EditTicket(v: View, bill: Record, bills: seq<Record>): (r: View)
    ensures r.id == Get(bill, "id")
    ensures r.counter == Some(EditCounter(v, bill) + 1)
    ensures r.counters == v.counters
    ensures r.page.containers == v.page.containers && r.page.handlers == v.page.handlers
    ensures r.page.panel.Form? <==> EditCounter(v, bill) % 2 == 0
  {
    var bid := Get(bill, "id");
    var c := EditCounter(v, bill);
    var id := if v.id == Undefined || v.id != bid then bid else v.id;
    v.(counter := Some(c + 1), id := id,
       page := if c % 2 == 0 then Select(v.page, bill, bills) else Deselect(v.page, bill))
  }

  /**
   * What one click on a card does: the selected id becomes the bill's, the
   * counter (reset on a change of bill) moves by one; from an even counter
   * the bill's form is shown with one handler per button and its card is
   * the only highlighted one among `bills`; from an odd counter the
   * placeholder comes back and the card is no longer highlighted. The
   * groups and the card handlers are untouched.
   */
  lemma EditTicketEffect(v: View, bill: Record, bills: seq<Record>)
    requires Consistent(v)
    ensures var r := EditTicket(v, bill, bills);
            var bid := Get(bill, "id");
            var c := EditCounter(v, bill);
            && Consistent(r)
            && r.id == bid
            && r.counter == Some(c + 1)
            && (v.counter.None? || v.id != bid ==> r.counter == Some(1))
            && r.counters == v.counters
            && r.page.containers == v.page.containers && r.page.handlers == v.page.handlers
            && (c % 2 == 0 ==>
                  && r.page.panel == Form(bill, 1)
                  && (bid in RenderedIds(v.page.containers) ==> bid in r.page.highlighted)
                  && (forall i | 0 <= i < |bills| && Get(bills[i], "id") != bid ::
                        Get(bills[i], "id") !in r.page.highlighted))
            && (c % 2 == 1 ==> r.page.panel == Placeholder && bid !in r.page.highlighted)
  {
    var r := EditTicket(v, bill, bills);
    var bid := Get(bill, "id");
    if EditCounter(v, bill) % 2 == 0 {
      forall i | 0 <= i < |bills| && Get(bills[i], "id") != bid
        ensures Get(bills[i], "id") !in r.page.highlighted
      {
        assert Get(bills[i], "id") in BillIds(bills);
      }
    }
  }

  /** A card click leaves the groups alone, so the expanded groups still show the arrows' bills. */
  lemma EditTicketShowsBills(v: View, bill: Record, clicked: seq<Record>, bills: seq<Record>, mode: Mode)
    requires ShowsBills(v, bills, mode)
    ensures ShowsBills(EditTicket(v, bill, clicked), bills, mode)
  {
  }

  /** Two clicks on the same card: the panel is back to what the first click left behind it. */
  lemma EditTicketTwice(v: View, bill: Record, bills: seq<Record>)
    requires Consistent(v)
    ensures var r2 := EditTicket(EditTicket(v, bill, bills), bill, bills);
            && r2.counter == Some(EditCounter(v, bill) + 2)
            && r2.page.panel == (if EditCounter(v, bill) % 2 == 0 then Placeholder else Form(bill, 1))
            && (EditCounter(v, bill) % 2 == 0 ==> Get(bill, "id") !in r2.page.highlighted)
  {
    EditTicketEffect(v, bill, bills);
    EditTicketEffect(EditTicket(v, bill, bills), bill, bills);
  }

  // ---------------------------------------------------------------------
  // The controller

  class Dashboard {
    /** Replaces the test-runner detection of `filteredBills`. */
    const mode: Mode
    /** Whether a store collaborator is configured (`this.store` is truthy). */
    const hasStore: bool
    /** The bill list the three arrow handlers are bound with. */
    const bills: seq<Record>

    var counters: map<int, nat>
    var counter: Option<nat>
    var id: Value
    var containers: map<int, seq<CardView>>
    var handlers: map<Value, nat>
    var highlighted: set<Value>
    var panel: Panel
    /** Store and navigation calls made so far. */
    var calls: seq<Call>

    function PageState(): Page
      reads this
    {
      Page(containers, handlers, highlighted, panel)
    }

    function State(): View
      reads this
    {
      View(counters, counter, id, PageState())
    }

    ghost predicate Valid()
      reads this
    {
      Consistent(State())
    }

    /** Every expanded group shows the cards of the arrows' bill list. */
    ghost predicate Synced()
      reads this
    {
      ShowsBills(State(), bills, mode)
    }

    constructor (mode: Mode, hasStore: bool, bills: seq<Record>)
      ensures Valid() && Synced()
      ensures State() == Initial() && calls == []
      ensures this.mode == mode && this.hasStore == hasStore && this.bills == bills
    {
      this.mode := mode;
      this.hasStore := hasStore;
      this.bills := bills;
      counters, counter, id := map[], None, Undefined;
      containers := map[1 := [], 2 := [], 3 := []];
      handlers, highlighted, panel := map[], {}, Placeholder;
      calls := [];
      InitialConsistent();
      InitialShowsBills(bills, mode);
    }

    /** `$('#status-bills-container' + index).html(content)`. */
    method RenderContainer(index: int, content: seq<CardView>)
      modifies this`containers, this`handlers, this`highlighted
      ensures PageState() == Render(old(PageState()), index, content)
    {
      var page := Render(PageState(), index, content);
      containers, handlers, highlighted := page.containers, page.handlers, page.highlighted;
    }

    /** `bills.forEach(bill => { card.off('click'); card.on('click', ...) })` over the cards of `bills`. */
    method RebindCards(bills: seq<Record>)
      modifies this`handlers
      ensures handlers == Rebound(old(handlers), bills)
    {
      var i := 0;
      while i < |bills|
        invariant 0 <= i <= |bills|
        invariant handlers == Rebind(old(handlers), bills[..i])
      {
        var k := Get(bills[i], "id");
        assert bills[..i + 1][..i] == bills[..i] && bills[..i + 1][i] == bills[i];
        assert Rebind(old(handlers), bills[..i + 1]) == On(Off(handlers, k), k);
        if k in handlers {
          handlers := handlers[k := 0];                // .off('click')
        }
        if k in handlers {
          handlers := handlers[k := handlers[k] + 1];  // .on('click', handleEditTicket)
        }
        i := i + 1;
      }
      assert bills[..|bills|] == bills;
      RebindCounts(old(handlers), bills);
    }

    /** `bills.forEach(b => card(b).css({ background: <default> }))`: no card of `bills` stays highlighted. */
    method UnhighlightCards(bills: seq<Record>)
      modifies this`highlighted
      ensures highlighted == old(highlighted) - BillIds(bills)
    {
      var i := 0;
      while i < |bills|
        invariant 0 <= i <= |bills|
        invariant highlighted == old(highlighted) - BillIds(bills[..i])
      {
        assert BillIds(bills[..i + 1]) == BillIds(bills[..i]) + {Get(bills[i], "id")} by {
          assert forall j :: 0 <= j < i ==> bills[..i + 1][j] == bills[..i][j];
        }
        highlighted := highlighted - {Get(bills[i], "id")};
        i := i + 1;
      }
      assert bills[..|bills|] == bills;
    }

    /** Clearing the highlight of every card of `bills`, then highlighting the card of `bid`. */
    method SelectCard(bid: Value, bills: seq<Record>)
      modifies this`highlighted
      ensures highlighted == (if bid in RenderedIds(containers) then old(highlighted) - BillIds(bills) + {bid}
                              else old(highlighted) - BillIds(bills))
    {
      UnhighlightCards(bills);
      if bid in RenderedIds(containers) {
        highlighted := highlighted + {bid};
      }
    }

    /** `handleShowTickets(e, bills, index)`: the toggle keeps the page consistent. */
    method HandleShowTickets(bills: seq<Record>, index: int) returns (r: seq<Record>)
      requires Valid() && CanShow(State(), bills, index, mode)
      modifies this`counters, this`containers, this`handlers, this`highlighted
      ensures Valid()
      ensures State() == ShowTickets(old(State()), bills, index, mode)
      ensures r == bills
    {
      ghost var before := State();
      r := ShowTicketsSteps(bills, index);
      ShowTicketsConsistent(before, bills, index, mode);
    }

    /** A click on arrow `index` (1 to 3): `handleShowTickets` with the bill list bound at construction. */
    method ArrowClick(index: int)
      requires Valid() && Synced() && CanShow(State(), bills, index, mode)
      modifies this`counters, this`containers, this`handlers, this`highlighted
      ensures Valid() && Synced()
      ensures State() == ShowTickets(old(State()), bills, index, mode)
    {
      ghost var before := State();
      var _ := HandleShowTickets(bills, index);
      ShowTicketsShowsBills(before, bills, index, mode);
    }

    /** The statements of `handleShowTickets`, in order. */
    method ShowTicketsSteps(bills: seq<Record>, index: int) returns (r: seq<Record>)
      requires CanShow(State(), bills, index, mode)
      modifies this`counters, this`containers, this`handlers, this`highlighted
      ensures State() == ShowTickets(old(State()), bills, index, mode)
      ensures r == bills
    {
      ghost var v := State();
      if index !in counters || counters[index] == 0 {
        counters := counters[index := 0];
      }
      var c := counters[index];
      assert c == CounterOf(v.counters, index);
      assert counters[index := c + 1] == Toggle(v.counters, index);
      if c % 2 == 0 {
        var content := Cards(Some(FilteredBills(Some(bills), StatusValue(GetStatus(index)), mode)));
        RenderContainer(index, content);
        counters := counters[index := c + 1];
        RebindCards(bills);
        assert PageState() == Expand(v.page, index, content, bills);
      } else {
        RenderContainer(index, []);
        counters := counters[index := c + 1];
      }
      assert PageState() == ShowPage(v, bills, index, mode);
      r := bills;
    }

    /** `handleEditTicket(e, bill, bills)`: the click keeps the page consistent. */
    method HandleEditTicket(bill: Record, bills: seq<Record>)
      requires Valid()
      modifies this`counter, this`id, this`highlighted, this`panel
      ensures Valid()
      ensures old(Synced()) ==> Synced()
      ensures State() == EditTicket(old(State()), bill, bills)
    {
      ghost var before := State();
      EditTicketSteps(bill, bills);
      EditTicketEffect(before, bill, bills);
      if ShowsBills(before, this.bills, mode) {
        EditTicketShowsBills(before, bill, bills, this.bills, mode);
      }
    }

    /** The statements of `handleEditTicket`, in order. */
    method EditTicketSteps(bill: Record, bills: seq<Record>)
      modifies this`counter, this`id, this`highlighted, this`panel
      ensures State() == EditTicket(old(State()), bill, bills)
    {
      ghost var v := State();
      var bid := Get(bill, "id");
      if counter.None? || id != bid {
        counter := Some(0);
      }
      if id == Undefined || id != bid {
        id := bid;
      }
      var c := counter.value;
      assert c == EditCounter(v, bill);
      if c % 2 == 0 {
        SelectCard(bid, bills);
        panel := Form(bill, 0);
        counter := Some(c + 1);
      } else {
        highlighted := highlighted - {bid};
        panel := Placeholder;
        counter := Some(c + 1);
      }
      panel := BindButtons(panel);
      assert PageState() == EditTicket(v, bill, bills).page;
    }

    /** `updateBill(bill)`: with a store, an update keyed by the bill's id. */
    method UpdateBill(bill: Record)
      modifies this`calls
      ensures hasStore ==> calls == old(calls) + [Update(Get(bill, "id"), bill)]
      ensures !hasStore ==> calls == old(calls)
    {
      if hasStore {
        calls := calls + [Update(Get(bill, "id"), bill)];
      }
    }

    /** `handleAcceptSubmit(e, bill)` with `comment` the value of the comment field. */
    method HandleAcceptSubmit(bill: Record, comment: Value)
      modifies this`calls
      ensures hasStore ==> calls == old(calls) + [Update(Get(bill, "id"), Patched(bill, "accepted", comment)),
                                                  Navigate(DashboardRoute)]
      ensures !hasStore ==> calls == old(calls) + [Navigate(DashboardRoute)]
    {
      var newBill := Patched(bill, "accepted", comment);
      UpdateBill(newBill);
      calls := calls + [Navigate(DashboardRoute)];
    }

    /** `handleRefuseSubmit(e, bill)` with `comment` the value of the comment field. */
    method HandleRefuseSubmit(bill: Record, comment: Value)
      modifies this`calls
      ensures hasStore ==> calls == old(calls) + [Update(Get(bill, "id"), Patched(bill, "refused", comment)),
                                                  Navigate(DashboardRoute)]
      ensures !hasStore ==> calls == old(calls) + [Navigate(DashboardRoute)]
    {
      var newBill := Patched(bill, "refused", comment);
      UpdateBill(newBill);
      calls := calls + [Navigate(DashboardRoute)];
    }

    /**
     * `getBillsAllUsers()`, with `listed` the outcome of the store's `list()`:
     * no store gives `undefined`; otherwise the normalised records, or the
     * store's error passed on unchanged.
     */
    method GetBillsAllUsers(listed: Result<seq<Record>, StoreError>) returns (r: Option<Result<seq<Record>, StoreError>>)
      modifies this`calls
      ensures !hasStore ==> r == None && calls == old(calls)
      ensures hasStore ==> calls == old(calls) + [ListBills]
      ensures hasStore && listed.Ok? ==> r == Some(Ok(NormalizeAll(listed.value)))
      ensures hasStore && listed.Err? ==> r == Some(Err(listed.error))
    {
      if hasStore {
        calls := calls + [ListBills];
        match listed
        case Ok(snapshot) => r := Some(Ok(NormalizeAll(snapshot)));
        case Err(error) => r := Some(Err(error));
      } else {
        r := None;
      }
    }
  }
}
