/** The admin console (`components/AdminDashboard.tsx`): CRM statistics derived from the
    store, the add-item dialog that builds a new project or beat from its form fields, and
    the per-inquiry status actions. */
module AdminDashboard {
  import opened Wrappers
  import opened Types
  import opened Lists
  import opened Text
  import opened DataContext
  import PaymentModal

  datatype Tab = DashboardTab | ProjectsTab | BeatsTab | OrdersTab

  datatype ModalType = ProjectForm | BeatForm

  /** `orders.reduce((acc, curr) => acc + curr.amount, 0)`, folded from the left. */
  function TotalRevenue(orders: seq<Order>): (r: real)
    ensures (forall i :: 0 <= i < |orders| ==> orders[i].amount >= 0.0) ==> r >= 0.0
  {
    if orders == [] then 0.0
    else TotalRevenue(orders[..|orders| - 1]) + orders[|orders| - 1].amount
  }

  /** Revenue is additive over any split of the order list. */
  lemma {:induction false} RevenueAppend(a: seq<Order>, b: seq<Order>)
    ensures TotalRevenue(a + b) == TotalRevenue(a) + TotalRevenue(b)
    decreases |b|
  {
    if b == [] {
      assert a + b == a;
    } else {
      var b' := b[..|b| - 1];
      assert (a + b)[..|a + b| - 1] == a + b';
      RevenueAppend(a, b');
    }
  }

  /** A newly recorded order (prepended by the store) adds exactly its amount to the
      revenue and one to the number of sales. */
  lemma RevenueOfNewOrder(order: Order, orders: seq<Order>)
    ensures TotalRevenue([order] + orders) == order.amount + TotalRevenue(orders)
    ensures TotalSales([order] + orders) == TotalSales(orders) + 1
  {
    RevenueAppend([order], orders);
    assert [order][..0] == [];
  }

  /** `orders.length`: no sales exactly when there are no orders. */
  function TotalSales(orders: seq<Order>): (n: nat)
    ensures n == 0 <==> orders == []
  {
    |orders|
  }

  predicate IsNew(m: ClientMessage) {
    m.status == New
  }

  /** `messages.filter(m => m.status === 'New').length`: zero exactly when no inquiry is new. */
  function NewMessages(messages: seq<ClientMessage>): (n: nat)
    ensures n <= |messages|
    ensures n == 0 <==> forall i :: 0 <= i < |messages| ==> messages[i].status != New
  {
    var kept := Filter(messages, IsNew);
    assert forall i :: 0 <= i < |messages| && IsNew(messages[i]) ==> messages[i] in kept;
    |kept|
  }

  /** The inquiry ids are pairwise distinct (the store does not enforce this). */
  ghost predicate UniqueIds(ms: seq<ClientMessage>) {
    forall i, j :: 0 <= i < j < |ms| ==> ms[i].id != ms[j].id
  }

  /** "Mark as Replied" and "Archive" are shown only under an inquiry whose status is New. */
  predicate StatusActionsOffered(m: ClientMessage) {
    m.status == New
  }

  /** With distinct ids, a status action on inquiry `i` changes that inquiry alone, from its
      status to the chosen one, and leaves every other inquiry as it was. */
  lemma SetStatusUniqueId(ms: seq<ClientMessage>, i: nat, status: MessageStatus)
    requires UniqueIds(ms) && i < |ms|
    ensures SetStatus(ms, ms[i].id, status) == ms[..i] + [ms[i].(status := status)] + ms[i + 1..]
  {
  }

  /** With distinct ids, each status action lowers the "New Leads" count by exactly one. */
  lemma StatusActionLowersNewCount(ms: seq<ClientMessage>, i: nat, status: MessageStatus)
    requires UniqueIds(ms) && i < |ms| && StatusActionsOffered(ms[i])
    requires status == Replied || status == Archived
    ensures NewMessages(SetStatus(ms, ms[i].id, status)) == NewMessages(ms) - 1
  {
    SetStatusUniqueId(ms, i, status);
    assert ms == ms[..i] + [ms[i]] + ms[i + 1..];
    FilterCountAround(ms[..i], ms[i], ms[i + 1..], IsNew);
    FilterCountAround(ms[..i], ms[i].(status := status), ms[i + 1..], IsNew);
  }

  /** With a repeated id the rule breaks: archiving the New inquiry "x" also archives an
      already Replied inquiry that shares its id. */
  lemma RepeatedIdMovesRepliedInquiry()
    ensures var ms := [ClientMessage("x", "A", "a@x", "Mix", "hi", "d1", New),
                       ClientMessage("x", "B", "b@x", "Beat", "yo", "d2", Replied)];
            StatusActionsOffered(ms[0]) && !StatusActionsOffered(ms[1]) &&
            SetStatus(ms, ms[0].id, Archived)[1].status == Archived
  {
  }

  const DefaultBeatPrice: real := 29.99

  /** `parseFloat(newItemPrice) || 29.99`: NaN (`None`) and zero both fall back to 29.99,
      so a new beat is never priced at zero. */
  function BeatPrice(parsed: Option<real>): (price: real)
    ensures price != 0.0
    ensures parsed.Some? && parsed.value != 0.0 ==> price == parsed.value
    ensures price == DefaultBeatPrice <==> parsed.None? || parsed.value == 0.0 || parsed.value == DefaultBeatPrice
  {
    match parsed
    case Some(v) => if v != 0.0 then v else DefaultBeatPrice
    case None => DefaultBeatPrice
  }

  /** The project `handleAddSubmit` builds; `now` is `Date.now()`, `year` the current year.
      Its id is the timestamp in decimal, so it reads back as `now`. */
  function ProjectFromForm(title: string, projectType: ProjectType, now: nat, year: nat): (p: Project)
    ensures p.title == title && p.projectType == projectType
    ensures p.id == NatToString(now) && p.releaseDate == NatToString(year)
    ensures DecimalValue(p.id) == now
    ensures DecimalValue(p.releaseDate) == year
    ensures p.artist == "Unknown Artist" && p.biography == Some("Biography pending update.")
  {
    NatToStringRoundTrip(now);
    NatToStringRoundTrip(year);
    Project(NatToString(now), title, "Unknown Artist", projectType,
      "https://picsum.photos/seed/" + NatToString(now) + "/400/400",
      "Newly added project description placeholder.", NatToString(year),
      Some("Biography pending update."))
  }

  /** The beat `handleAddSubmit` builds from the title and price fields. */
  function BeatFromForm(title: string, priceText: string, parseFloat: string -> Option<real>, now: nat): (b: Beat)
    ensures b.title == title && b.price == BeatPrice(parseFloat(priceText))
    ensures b.id == NatToString(now)
    ensures DecimalValue(b.id) == now
    ensures b.bpm == 140 && b.key == "Cm" && b.tags == ["New", "Trap"]
    ensures b.previewUrl == Some("") && b.audioUrl == Some("")
  {
    NatToStringRoundTrip(now);
    Beat(NatToString(now), title, 140, "Cm", BeatPrice(parseFloat(priceText)),
      "https://picsum.photos/seed/" + NatToString(now) + "/300/300",
      ["New", "Trap"], Some(""), Some(""))
  }

  /** A beat added from the dashboard has empty audio and preview URLs, so buying it offers
      no download. */
  lemma AddedBeatHasNoDownload(title: string, priceText: string, parseFloat: string -> Option<real>, now: nat)
    ensures PaymentModal.DownloadUrl(BeatProduct(BeatFromForm(title, priceText, parseFloat, now))) == None
  {
  }

  /** The console's own state; `store` is the shared store it reads and mutates. */
  class Dashboard {
    const store: DataStore
    var activeTab: Tab
    var isModalOpen: bool
    var modalType: Option<ModalType>
    var newItemTitle: string
    var newItemPrice: string
    var newItemType: ProjectType

    constructor(store: DataStore)
      ensures this.store == store
      ensures activeTab == DashboardTab && !isModalOpen && modalType == None
      ensures newItemTitle == "" && newItemPrice == "" && newItemType == Produced
    {
      this.store := store;
      activeTab := DashboardTab;
      isModalOpen := false;
      modalType := None;
      newItemTitle := "";
      newItemPrice := "";
      newItemType := Produced;
    }

    /** One of the four sidebar buttons. */
    method SelectTab(tab: Tab)
      modifies this
      ensures activeTab == tab
      ensures isModalOpen == old(isModalOpen) && modalType == old(modalType)
      ensures newItemTitle == old(newItemTitle) && newItemPrice == old(newItemPrice) && newItemType == old(newItemType)
    {
      activeTab := tab;
    }

    /** "Add Project" / "Add Beat". */
    method OpenAddModal(kind: ModalType)
      modifies this
      ensures isModalOpen && modalType == Some(kind)
      ensures activeTab == old(activeTab)
      ensures newItemTitle == old(newItemTitle) && newItemPrice == old(newItemPrice) && newItemType == old(newItemType)
    {
      modalType := Some(kind);
      isModalOpen := true;
    }

    /** The form's three inputs. */
    method EditForm(title: string, price: string, projectType: ProjectType)
      modifies this
      ensures newItemTitle == title && newItemPrice == price && newItemType == projectType
      ensures activeTab == old(activeTab) && isModalOpen == old(isModalOpen) && modalType == old(modalType)
    {
      newItemTitle, newItemPrice, newItemType := title, price, projectType;
    }

    /** `closeModal`: the dialog closes and its title and price are cleared; the project
        type selection is kept. */
    method CloseModal()
      modifies this
      ensures !isModalOpen && modalType == None && newItemTitle == "" && newItemPrice == ""
      ensures newItemType == old(newItemType) && activeTab == old(activeTab)
    {
      isModalOpen := false;
      newItemTitle := "";
      newItemPrice := "";
      modalType := None;
    }

    /** `handleAddSubmit`: one new project or one new beat at the front of its collection,
        as the dialog's type says, nothing when there is no type; then the dialog closes. */
    method HandleAddSubmit(parseFloat: string -> Option<real>, now: nat, year: nat)
      modifies this, store
      ensures old(modalType) == Some(ProjectForm) ==>
        store.projects == [ProjectFromForm(old(newItemTitle), old(newItemType), now, year)] + old(store.projects) &&
        store.beats == old(store.beats)
      ensures old(modalType) == Some(BeatForm) ==>
        store.beats == [BeatFromForm(old(newItemTitle), old(newItemPrice), parseFloat, now)] + old(store.beats) &&
        store.projects == old(store.projects)
      ensures old(modalType) == None ==> store.projects == old(store.projects) && store.beats == old(store.beats)
      ensures store.packs == old(store.packs) && store.messages == old(store.messages) && store.orders == old(store.orders)
      ensures !isModalOpen && modalType == None && newItemTitle == "" && newItemPrice == ""
      ensures newItemType == old(newItemType) && activeTab == old(activeTab)
    {
      if modalType == Some(ProjectForm) {
        store.AddProject(ProjectFromForm(newItemTitle, newItemType, now, year));
      } else if modalType == Some(BeatForm) {
        store.AddBeat(BeatFromForm(newItemTitle, newItemPrice, parseFloat, now));
      }
      CloseModal();
    }

    /** "Mark as Replied" / "Archive" under inquiry `i` of the dashboard tab. */
    method StatusAction(i: nat, status: MessageStatus)
      requires activeTab == DashboardTab
      requires i < |store.messages| && StatusActionsOffered(store.messages[i])
      requires status == Replied || status == Archived
      modifies store
      ensures store.messages == SetStatus(old(store.messages), old(store.messages[i].id), status)
      ensures store.projects == old(store.projects) && store.beats == old(store.beats)
      ensures store.packs == old(store.packs) && store.orders == old(store.orders)
    {
      store.UpdateMessageStatus(store.messages[i].id, status);
    }
  }
}
