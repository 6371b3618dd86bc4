/** The beat store page (`components/BeatStore.tsx`): its own beat list, the single
    "now playing" slot, the buy selection and the checkout dialog it opens. */
module BeatStore {
  import opened Wrappers
  import opened Types
  import PaymentModal

  /** The page's own catalogue; unlike the shared store's beats it carries no audio or
      preview URLs. */
  const StoreBeats: seq<Beat> := [
    Beat("1", "Midnight Drive", 140, "Cm", 29.99, "https://picsum.photos/seed/beat1/300/300",
      ["Trap", "Dark", "Hard"], None, None),
    Beat("2", "Summer Vibes", 98, "G maj", 34.99, "https://picsum.photos/seed/beat2/300/300",
      ["Afrobeat", "Chill", "Smooth"], None, None),
    Beat("3", "Drill Sergeant", 142, "Fm", 29.99, "https://picsum.photos/seed/beat3/300/300",
      ["Drill", "UK", "Aggressive"], None, None),
    Beat("4", "Cloud Nine", 85, "Am", 49.99, "https://picsum.photos/seed/beat4/300/300",
      ["Lo-Fi", "R&B", "Soul"], None, None),
    Beat("5", "Bongo Flava Hit", 102, "C maj", 39.99, "https://picsum.photos/seed/beat5/300/300",
      ["Bongo", "Dance", "Pop"], None, None),
    Beat("6", "Serengeti Trap", 130, "Dm", 29.99, "https://picsum.photos/seed/beat6/300/300",
      ["Trap", "Ethnic", "Flute"], None, None)
  ]

  const MaxVisibleTags: nat := 3

  /** `tags.slice(0, 3)`: the first three tags, in their order; all of them when there are
      no more than three. */
  function VisibleTags(tags: seq<string>): (shown: seq<string>)
    ensures |shown| == if |tags| < MaxVisibleTags then |tags| else MaxVisibleTags
    ensures shown == tags[..|shown|]
    ensures |tags| <= MaxVisibleTags ==> shown == tags
  {
    if |tags| <= MaxVisibleTags then tags else tags[..MaxVisibleTags]
  }

  /** `togglePlay(id)`: the slot empties when `id` is the one playing, and otherwise holds
      `id` (replacing any other beat), so at most one beat plays. */
  function Toggled(playingId: Option<string>, id: string): (next: Option<string>)
    ensures next == None <==> playingId == Some(id)
    ensures next.Some? ==> next.value == id
  {
    if playingId == Some(id) then None else Some(id)
  }

  /** Toggling the same beat twice restores the slot exactly when nothing or that same beat
      was playing; when another beat was playing, it is not resumed. */
  lemma ToggleTwice(playingId: Option<string>, id: string)
    ensures Toggled(Toggled(playingId, id), id) == playingId <==> playingId == None || playingId == Some(id)
  {
    if playingId.Some? && playingId.value != id {
      assert Toggled(playingId, id) == Some(id);
      assert Toggled(Toggled(playingId, id), id) == None;
    }
  }

  /** No beat of the page's catalogue has a downloadable file, so checkout would offer no
      download for any of them. */
  lemma StoreBeatsHaveNoDownload()
    ensures forall i :: 0 <= i < |StoreBeats| ==> PaymentModal.DownloadUrl(BeatProduct(StoreBeats[i])) == None
  {
  }

  /** The `product` prop the checkout dialog receives from this page: the page passes the
      selection as `beat`, which the dialog does not read, so whatever is selected the
      dialog gets no product. */
  function ModalProduct(selectedBeat: Option<Beat>): (product: Option<Product>)
    ensures product == None
  {
    None
  }

  class Store {
    var playingId: Option<string>
    var selectedBeat: Option<Beat>
    var isModalOpen: bool

    constructor()
      ensures playingId == None && selectedBeat == None && !isModalOpen
    {
      playingId := None;
      selectedBeat := None;
      isModalOpen := false;
    }

    /** The play/pause button on a beat's cover. */
    method TogglePlay(id: string)
      modifies this
      ensures playingId == Toggled(old(playingId), id)
      ensures selectedBeat == old(selectedBeat) && isModalOpen == old(isModalOpen)
    {
      if playingId == Some(id) {
        playingId := None;
      } else {
        playingId := Some(id);
      }
    }

    /** `openBuyModal(beat)`: select the beat and open the dialog; playback is untouched. */
    method OpenBuyModal(beat: Beat)
      modifies this
      ensures selectedBeat == Some(beat) && isModalOpen
      ensures playingId == old(playingId)
    {
      selectedBeat := Some(beat);
      isModalOpen := true;
    }

    /** The dialog's `onClose`: it closes, and the selection stays. */
    method CloseModal()
      modifies this
      ensures !isModalOpen
      ensures selectedBeat == old(selectedBeat) && playingId == old(playingId)
    {
      isModalOpen := false;
    }
  }

  /** Buying from this page: the beat is selected and the dialog is told to open, yet it
      receives no product and so renders nothing. */
  method BuyFromStoreScenario(beat: Beat) returns (selected: Option<Beat>, dialogOpen: bool, rendered: bool)
    ensures selected == Some(beat) && dialogOpen && !rendered
  {
    var store := new Store();
    var modal := new PaymentModal.CheckoutModal(store.isModalOpen, ModalProduct(store.selectedBeat));
    store.OpenBuyModal(beat);
    modal.ReceiveProps(store.isModalOpen, ModalProduct(store.selectedBeat));
    selected, dialogOpen, rendered := store.selectedBeat, modal.isOpen, modal.Rendered();
  }
}
