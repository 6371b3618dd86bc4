/** The shapes of `types.ts`, plus the two CRM records (`Order`, `ClientMessage`) whose
    shapes are fixed by how the store seeds them and how the dashboard reads them. */
module Types {
  import opened Wrappers

  datatype ProjectType = Produced | Mixed | Mastered {
    /** The enum's string value. */
    function Name(): string {
      match this
      case Produced => "Produced"
      case Mixed => "Mixed"
      case Mastered => "Mastered"
    }
  }

  /** A portfolio entry. The source's field `type` is `projectType` here (`type` is a Dafny keyword). */
  datatype Project = Project(
    id: string,
    title: string,
    artist: string,
    projectType: ProjectType,
    coverUrl: string,
    description: string,
    releaseDate: string,
    biography: Option<string>)

  /** A single beat; `audioUrl` is the legacy download field, `previewUrl` the newer one. */
  datatype Beat = Beat(
    id: string,
    title: string,
    bpm: int,
    key: string,
    price: real,
    coverUrl: string,
    tags: seq<string>,
    audioUrl: Option<string>,
    previewUrl: Option<string>)

  datatype BeatPack = BeatPack(
    id: string,
    title: string,
    price: real,
    originalPrice: real,
    coverUrl: string,
    description: string,
    beatsIncluded: seq<string>,
    fileUrl: Option<string>)

  /** What the checkout sells: `Beat | BeatPack`. The source tells the two apart by the
      presence of `beatsIncluded`; here the constructor is the discriminant. */
  datatype Product = BeatProduct(beat: Beat) | PackProduct(pack: BeatPack) {
    predicate IsPack() {
      PackProduct?
    }

    function Title(): string {
      match this
      case BeatProduct(b) => b.title
      case PackProduct(p) => p.title
    }

    function Price(): real {
      match this
      case BeatProduct(b) => b.price
      case PackProduct(p) => p.price
    }
  }

  datatype ChatRole = User | Model

  /** One chat bubble; `isError` is absent (false) except on the fixed failure reply. */
  datatype ChatMessage = ChatMessage(role: ChatRole, text: string, isError: bool)

  datatype TravelCategory = Hotel | Food | Travel | Event

  datatype TravelEntry = TravelEntry(
    id: string,
    title: string,
    category: TravelCategory,
    imageUrl: string,
    location: string,
    description: string,
    date: string,
    rating: Option<int>)

  datatype MessageStatus = New | Replied | Archived

  /** A contact-form inquiry tracked in the admin CRM. */
  datatype ClientMessage = ClientMessage(
    id: string,
    name: string,
    email: string,
    service: string,
    message: string,
    date: string,
    status: MessageStatus)

  datatype OrderStatus = Verified | Pending

  /** A recorded purchase. The dashboard shows `'M-Pesa'` with a phone icon and any other
      `paymentMethod` with a link icon, so the method stays a string. */
  datatype Order = Order(
    id: string,
    customerName: string,
    productTitle: string,
    amount: real,
    date: string,
    paymentMethod: string,
    transactionId: Option<string>,
    status: OrderStatus)
}
