/** The shared catalogue and CRM store (`context/DataContext.tsx`): five collections,
    hydrated from local storage or seeded, and changed only through the store's mutators. */
module DataContext {
  import opened Wrappers
  import opened Types
  import opened Lists
  import Content

  /** What `localStorage.getItem(key)` gave and what `JSON.parse` made of it:
      the read itself threw, nothing was stored (`null`), or a stored text that parsed
      (`Some`) or made `JSON.parse` throw (`None`). */
  datatype StoredValue<T> = ReadFailed | NotStored | Stored(text: string, parsed: Option<T>)

  /** `getSavedData(key, fallback)`: the parsed stored value when a non-empty text was stored
      and parsed, otherwise the fallback. */
  function GetSavedData<T>(stored: StoredValue<T>, fallback: T): (r: T)
    ensures stored.Stored? && stored.text != "" && stored.parsed.Some? ==> r == stored.parsed.value
    ensures stored.ReadFailed? || stored.NotStored? ==> r == fallback
    ensures stored.Stored? && (stored.text == "" || stored.parsed.None?) ==> r == fallback
  {
    match stored
    case ReadFailed => fallback
    case NotStored => fallback
    case Stored(text, parsed) => if text != "" then parsed.GetOr(fallback) else fallback
  }

  /** The mock inquiries the store starts with when nothing is saved. */
  const SeedMessages: seq<ClientMessage> := [
    ClientMessage("m1", "John Doe", "john@example.com", "Mixing & Mastering",
      "Looking for a quote on a 5 track EP.", "2023-10-24", New),
    ClientMessage("m2", "Alice Singer", "alice@music.com", "Custom Beat",
      "I need an afrobeat instrumental similar to Burna Boy.", "2023-10-22", Replied)
  ]

  /** The mock order the store starts with when nothing is saved. */
  const SeedOrders: seq<Order> := [
    Order("ord-123", "Anonymous Client", "Midnight Drive", 29.99, "2023-10-25", "M-Pesa",
      Some("QK857291"), Verified)
  ]

  /** `prev.filter(x => x.id !== id)`: every element carrying `id` is dropped. */
  function RemoveById<T(!new)>(s: seq<T>, idOf: T -> string, id: string): (r: seq<T>)
    ensures |r| <= |s|
    ensures forall x :: x in r <==> x in s && idOf(x) != id
  {
    Filter(s, x => idOf(x) != id)
  }

  function ProjectId(p: Project): string { p.id }
  function BeatId(b: Beat): string { b.id }

  /** After a delete nothing with that id is left, every other element keeps its
      multiplicity, and the survivors keep their relative order. */
  lemma RemoveByIdSpec<T(!new)>(s: seq<T>, idOf: T -> string, id: string)
    ensures forall x :: x in RemoveById(s, idOf, id) ==> idOf(x) != id
    ensures forall x :: idOf(x) != id ==> multiset(RemoveById(s, idOf, id))[x] == multiset(s)[x]
    ensures IsSubsequence(RemoveById(s, idOf, id), s)
  {
    FilterIsSubsequence(s, x => idOf(x) != id);
  }

  /** Deleting an id that no element carries leaves the collection unchanged. */
  lemma RemoveAbsentId<T(!new)>(s: seq<T>, idOf: T -> string, id: string)
    requires forall i :: 0 <= i < |s| ==> idOf(s[i]) != id
    ensures RemoveById(s, idOf, id) == s
  {
    FilterKeepsAll(s, x => idOf(x) != id);
  }

  /** Deleting the same id twice is deleting it once. */
  lemma RemoveByIdIdempotent<T(!new)>(s: seq<T>, idOf: T -> string, id: string)
    ensures RemoveById(RemoveById(s, idOf, id), idOf, id) == RemoveById(s, idOf, id)
  {
    FilterIdempotent(s, x => idOf(x) != id);
  }

  /** Deleting an id that is present shrinks the collection. */
  lemma RemovePresentIdShrinks<T(!new)>(s: seq<T>, idOf: T -> string, id: string, i: nat)
    requires i < |s| && idOf(s[i]) == id
    ensures |RemoveById(s, idOf, id)| < |s|
  {
    var r := RemoveById(s, idOf, id);
    var rest := multiset(s) - multiset{s[i]};
    assert multiset(r) <= rest by {
      forall x ensures multiset(r)[x] <= rest[x] {
        if x == s[i] {
          assert multiset(r)[x] == 0;
        }
      }
    }
    assert s[i] in multiset(s);
    assert |rest| == |s| - 1;
    SubMultisetSize(multiset(r), rest);
  }

  lemma SubMultisetSize<T>(a: multiset<T>, b: multiset<T>)
    requires a <= b
    ensures |a| <= |b|
  {
    assert b == a + (b - a);
  }

  /** `prev.map(m => m.id === id ? { ...m, status } : m)`. */
  function SetStatus(ms: seq<ClientMessage>, id: string, status: MessageStatus): (r: seq<ClientMessage>)
    ensures |r| == |ms|
    ensures forall i :: 0 <= i < |ms| ==>
      r[i] == if ms[i].id == id then ms[i].(status := status) else ms[i]
  {
    if ms == [] then []
    else
      var m := if ms[0].id == id then ms[0].(status := status) else ms[0];
      [m] + SetStatus(ms[1..], id, status)
  }

  /** A status update for an id that no message carries is a no-op. */
  lemma SetStatusAbsentId(ms: seq<ClientMessage>, id: string, status: MessageStatus)
    requires forall i :: 0 <= i < |ms| ==> ms[i].id != id
    ensures SetStatus(ms, id, status) == ms
  {
  }

  /** Every matching message ends with the new status and nothing but the status changes. */
  lemma SetStatusEffect(ms: seq<ClientMessage>, id: string, status: MessageStatus)
    ensures forall i :: 0 <= i < |ms| && ms[i].id == id ==> SetStatus(ms, id, status)[i].status == status
    ensures forall i :: 0 <= i < |ms| ==>
      SetStatus(ms, id, status)[i].(status := ms[i].status) == ms[i]
  {
  }

  /** The store. Each field is one collection; each mutator replaces exactly one of them. */
  class DataStore {
    var projects: seq<Project>
    var beats: seq<Beat>
    var packs: seq<BeatPack>
    var messages: seq<ClientMessage>
    var orders: seq<Order>

    /** Hydration at start-up: each collection from its storage key, else its seed. */
    constructor(savedProjects: StoredValue<seq<Project>>, savedBeats: StoredValue<seq<Beat>>,
                savedPacks: StoredValue<seq<BeatPack>>, savedMessages: StoredValue<seq<ClientMessage>>,
                savedOrders: StoredValue<seq<Order>>)
      ensures projects == GetSavedData(savedProjects, Content.Projects)
      ensures beats == GetSavedData(savedBeats, Content.Beats)
      ensures packs == GetSavedData(savedPacks, Content.Packs)
      ensures messages == GetSavedData(savedMessages, SeedMessages)
      ensures orders == GetSavedData(savedOrders, SeedOrders)
    {
      projects := GetSavedData(savedProjects, Content.Projects);
      beats := GetSavedData(savedBeats, Content.Beats);
      packs := GetSavedData(savedPacks, Content.Packs);
      messages := GetSavedData(savedMessages, SeedMessages);
      orders := GetSavedData(savedOrders, SeedOrders);
    }

    method AddProject(project: Project)
      modifies this
      ensures projects == [project] + old(projects)
      ensures beats == old(beats) && packs == old(packs) && messages == old(messages) && orders == old(orders)
    {
      projects := [project] + projects;
    }

    method DeleteProject(id: string)
      modifies this
      ensures projects == RemoveById(old(projects), ProjectId, id)
      ensures beats == old(beats) && packs == old(packs) && messages == old(messages) && orders == old(orders)
    {
      projects := RemoveById(projects, ProjectId, id);
    }

    method AddBeat(beat: Beat)
      modifies this
      ensures beats == [beat] + old(beats)
      ensures projects == old(projects) && packs == old(packs) && messages == old(messages) && orders == old(orders)
    {
      beats := [beat] + beats;
    }

    method DeleteBeat(id: string)
      modifies this
      ensures beats == RemoveById(old(beats), BeatId, id)
      ensures projects == old(projects) && packs == old(packs) && messages == old(messages) && orders == old(orders)
    {
      beats := RemoveById(beats, BeatId, id);
    }

    method AddMessage(msg: ClientMessage)
      modifies this
      ensures messages == [msg] + old(messages)
      ensures projects == old(projects) && beats == old(beats) && packs == old(packs) && orders == old(orders)
    {
      messages := [msg] + messages;
    }

    method UpdateMessageStatus(id: string, status: MessageStatus)
      modifies this
      ensures messages == SetStatus(old(messages), id, status)
      ensures projects == old(projects) && beats == old(beats) && packs == old(packs) && orders == old(orders)
    {
      messages := SetStatus(messages, id, status);
    }

    method AddOrder(order: Order)
      modifies this
      ensures orders == [order] + old(orders)
      ensures projects == old(projects) && beats == old(beats) && packs == old(packs) && messages == old(messages)
    {
      orders := [order] + orders;
    }
  }

  /** With nothing saved, the CRM starts with inquiry m1 (New), inquiry m2 (Replied) and the
      verified M-Pesa order ord-123 of 29.99. */
  method FreshStoreSeeds() returns (messageIds: seq<string>, statuses: seq<MessageStatus>, order: Order, orderCount: nat)
    ensures messageIds == ["m1", "m2"] && statuses == [New, Replied]
    ensures orderCount == 1
    ensures order.id == "ord-123" && order.amount == 29.99 && order.status == Verified
    ensures order.paymentMethod == "M-Pesa"
  {
    var store := new DataStore(NotStored, NotStored, NotStored, NotStored, NotStored);
    messageIds := [store.messages[0].id, store.messages[1].id];
    statuses := [store.messages[0].status, store.messages[1].status];
    order := store.orders[0];
    orderCount := |store.orders|;
  }
}
