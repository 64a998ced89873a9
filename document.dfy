/**
 * The document model: messages and their content, people, DMs, journal
 * pages and the authorities a piece of dynamic content may be granted.
 * Alongside each serialisable entity sits its persisted form, which is what
 * serde writes and reads: the `Embed` variant is marked `skip`, so it has no
 * persisted form at all.
 */
module Document {
  import opened Foreign

  type MsgId = u64
  type DMId = u64

  /** Placeholders for a future plugin's program and frozen state. */
  datatype DynamicContent = DynamicContent(programBlob: (), programState: ())

  /** A named permission dynamic content may be granted. */
  datatype Authority = MediaDevices | Network | Storage | SlfApi

  /** The authorities granted to one piece of dynamic content, as a list. */
  datatype ContentPolicy = ContentPolicy(authorities: seq<Authority>)

  /** A reference to an image cached from the web. */
  datatype CachedImgRef = CachedImgRef(url: Url)

  /** A possibly absent contact card. */
  datatype Card = Card(vcard: Option<Vcard>)

  datatype Option<T> = None | Some(value: T)

  datatype Person = Person(id: u64, card: Card, profile: Option<MsgId>, cachedProfileImage: seq<u8>)

  /** What a message holds: a closed union of sixteen variants. */
  datatype MsgContent =
    | Embed(page: Webpage)
    | Ref(caption: Option<string>, id: MsgId)
    | Txt(txt: string)
    | Data(data: seq<u8>)
    | Img(img: seq<u8>)
    | Hyperlink(url: Url, linkText: Option<string>)
    | Composite(parts: seq<MsgId>)
    | Dynamic(dynamic: DynamicContent, policy: ContentPolicy)
    | Html(html: seq<u8>)
    | File(mime: Mime, file: seq<u8>)
    | Person(person: Person)
    | Doi(doi: string)
    | Filesystem(archive: seq<u8>)
    | Date(input: string, date: DateTime)
    | TemporalObligation
    | Dm(dm: DMId)

  datatype Msg = Msg(id: MsgId, content: MsgContent, authoredDate: DateTime)

  datatype DM = DM(name: string, scrollState: (MsgId, u64), msgsInSequence: seq<MsgId>)

  datatype JournalPage = JournalPage(title: string, msgsInSequence: seq<MsgId>)

  /** The persisted form of `MsgContent`: every variant except the skipped `Embed`. */
  datatype StoredContent =
    | SRef(caption: Option<string>, id: MsgId)
    | STxt(txt: string)
    | SData(data: seq<u8>)
    | SImg(img: seq<u8>)
    | SHyperlink(url: Url, linkText: Option<string>)
    | SComposite(parts: seq<MsgId>)
    | SDynamic(dynamic: DynamicContent, policy: ContentPolicy)
    | SHtml(html: seq<u8>)
    | SFile(mime: Mime, file: seq<u8>)
    | SPerson(person: Person)
    | SDoi(doi: string)
    | SFilesystem(archive: seq<u8>)
    | SDate(input: string, date: DateTime)
    | STemporalObligation
    | SDm(dm: DMId)

  /** The persisted form of a message. */
  datatype StoredMsg = StoredMsg(id: MsgId, content: StoredContent, authoredDate: DateTime)

  /** Content serde can write: everything but a loaded preview. */
  predicate Persistable(c: MsgContent) {
    !c.Embed?
  }

  /** Reading persisted content back; a live preview can never come out of it. */
  function Restore(s: StoredContent): (c: MsgContent)
    ensures Persistable(c)
  {
    match s
    case SRef(caption, id) => Ref(caption, id)
    case STxt(t) => Txt(t)
    case SData(d) => Data(d)
    case SImg(i) => Img(i)
    case SHyperlink(u, t) => Hyperlink(u, t)
    case SComposite(p) => Composite(p)
    case SDynamic(d, p) => Dynamic(d, p)
    case SHtml(h) => Html(h)
    case SFile(m, f) => File(m, f)
    case SPerson(p) => MsgContent.Person(p)
    case SDoi(d) => Doi(d)
    case SFilesystem(a) => Filesystem(a)
    case SDate(i, d) => Date(i, d)
    case STemporalObligation => TemporalObligation
    case SDm(d) => Dm(d)
  }

  /**
   * Writing content: fails exactly on the skipped `Embed` variant, and what
   * it writes reads back as the content it came from.
   */
  function Persist(c: MsgContent): (r: Option<StoredContent>)
    ensures r.None? <==> !Persistable(c)
    ensures r.Some? ==> Restore(r.value) == c
  {
    match c
    case Embed(_) => None
    case Ref(caption, id) => Some(SRef(caption, id))
    case Txt(t) => Some(STxt(t))
    case Data(d) => Some(SData(d))
    case Img(i) => Some(SImg(i))
    case Hyperlink(u, t) => Some(SHyperlink(u, t))
    case Composite(p) => Some(SComposite(p))
    case Dynamic(d, p) => Some(SDynamic(d, p))
    case Html(h) => Some(SHtml(h))
    case File(m, f) => Some(SFile(m, f))
    case Person(p) => Some(SPerson(p))
    case Doi(d) => Some(SDoi(d))
    case Filesystem(a) => Some(SFilesystem(a))
    case Date(i, d) => Some(SDate(i, d))
    case TemporalObligation => Some(STemporalObligation)
    case Dm(d) => Some(SDm(d))
  }

  /** Reading back and writing again reproduces the persisted content. */
  lemma PersistRestore(s: StoredContent)
    ensures Persist(Restore(s)) == Some(s)
  {
  }

  /** Writing a message fails exactly when its content is a live preview. */
  function PersistMsg(m: Msg): (r: Option<StoredMsg>)
    ensures r.None? <==> !Persistable(m.content)
    ensures r.Some? ==> RestoreMsg(r.value) == m
  {
    match Persist(m.content)
    case None => None
    case Some(c) => Some(StoredMsg(m.id, c, m.authoredDate))
  }

  /** Reading a message back. */
  function RestoreMsg(s: StoredMsg): (m: Msg)
    ensures Persistable(m.content)
    ensures m.id == s.id && m.authoredDate == s.authoredDate
    ensures Persist(m.content) == Some(s.content)
  {
    PersistRestore(s.content);
    Msg(s.id, Restore(s.content), s.authoredDate)
  }

  /** Reading a message back and writing it again reproduces the persisted message. */
  lemma PersistRestoreMsg(s: StoredMsg)
    ensures PersistMsg(RestoreMsg(s)) == Some(s)
  {
    PersistRestore(s.content);
  }
}
