/** The rows of the CMS database. Identifiers are row numbers: row n of a table is element n - 1. */
module Schema {
  import opened Base
  import opened Text

  datatype Fault =
    | NotFound | Permission | Validation | ContentVersion | EditorialState | RouteConflict
    | ReviewRevision | SelfReview | ContentArchived | NotPublished | Markdown | PayloadFault
    | TagConflict | GroupConflict | GroupMissing | TaxonomySlug | TopicTarget
    | AssetInvalid | AssetDeleted | Unavailable

  datatype Kind = CuratedArticle | Post | Note | Topic

  datatype Role = Admin | Reviewer | Editor

  datatype Actor = Actor(id: int, role: Role, active: bool)

  datatype Prose = Prose(title: string, summary: string, body: string, language: string,
                         seoTitle: string, seoDescription: string)

  datatype English = English(enabled: bool, text: Prose, labels: string)

  // The display mirrors a note carries of its group.
  datatype Mirror = Mirror(name: string, description: string, order: int)

  datatype Payload =
    | PostPayload
    | NotePayload(groupSlug: string, order: int, mirror: Mirror)
    | TopicPayload(order: int, recommendedCount: int)
    | CuratedPayload(source: string)

  datatype Fields = Fields(prose: Prose, slug: string, byline: int, cover: Option<int>,
                           featured: bool, english: Option<English>, payload: Payload)

  datatype Draft = Draft(version: int, fields: Fields, tags: set<int>, entries: seq<int>)

  datatype Revision = Revision(content: int, no: int, fields: Fields, tags: set<int>,
                               entries: seq<int>, createdBy: int, createdAt: int)

  datatype Editorial = Drafting | InReview | ChangesRequested | Synced

  datatype Item = Item(kind: Kind, owner: int, state: Editorial, pending: Option<int>,
                       published: Option<int>, firstPublished: Option<int>,
                       lastPublished: Option<int>, updatedAt: int, archivedAt: Option<int>)

  datatype Decision = RequestedChanges | Approved

  datatype Review = Review(content: int, reviewer: int, decision: Decision, comment: string)

  datatype RouteKind = Canonical | Redirect

  datatype Route = Route(owner: int, kind: RouteKind)

  datatype Translation = Translation(name: string, description: string)

  datatype Tag = Tag(name: string, normalized: string, slug: string, description: string,
                     english: Option<Translation>)

  datatype Group = Group(slug: string, name: string, description: string, nameEn: string,
                         descriptionEn: string, order: int)

  datatype Author = Author(slug: string, displayName: string, bio: string, avatar: string, website: string)

  // The card is what readers see of an image; it never changes after the upload.
  datatype Asset = Asset(sha: string, card: string, deletedAt: Option<int>)

  // The public documents. Encoding and hashing are free constructors: deterministic and injective.
  datatype PublicPayload =
    | PublicPost
    | PublicNote(groupSlug: string, order: int)
    | PublicTopic(order: int, recommendedCount: int)
    | PublicCurated(source: string)

  datatype Entry = Entry(position: int, target: int)

  datatype PublicAuthor = PublicAuthor(id: int, author: Author)

  datatype PublicAsset = PublicAsset(id: int, card: string)

  datatype PublicGroup = PublicGroup(id: int, group: Group)

  datatype PublicTag = PublicTag(id: int, name: string, slug: string, description: string,
                                 nameEn: string, descriptionEn: string)

  datatype PublicContent = PublicContent(
    id: int, kind: Kind, revisionNo: int, canonicalPath: string, prose: Prose, slug: string,
    authorId: int, featured: bool, english: Option<English>, cover: Option<int>,
    firstPublished: int, lastPublished: int, tagIds: seq<int>, entries: seq<Entry>,
    payload: PublicPayload)

  datatype PublicRoute = PublicRoute(path: string, kind: RouteKind, contentId: int)

  datatype Snapshot = Snapshot(
    schemaVersion: int, generation: int, exportedAt: int, authors: seq<PublicAuthor>,
    assets: seq<PublicAsset>, groups: seq<PublicGroup>, tags: seq<PublicTag>,
    content: seq<PublicContent>, routes: seq<PublicRoute>)

  datatype Bytes = Json(snapshot: Snapshot)

  datatype Digest = Sha256(of: Bytes)

  datatype Key = SnapshotObject(generation: int)

  datatype JobState = Pending | SnapshotUploaded | BuildTriggered | Failed | Superseded

  datatype Job = Job(generation: int, state: JobState, key: Option<Key>, digest: Option<Digest>,
                     attempts: int, nextAttempt: Option<int>, createdAt: int)

  datatype Db = Db(
    items: seq<Item>, drafts: seq<Draft>, revisions: seq<Revision>, reviews: map<int, Review>,
    routes: map<string, Route>, tags: seq<Tag>, groups: seq<Group>, profiles: seq<Author>,
    assets: seq<Asset>, ready: bool, generation: int, updatedAt: int,
    jobs: seq<Job>)

  // A fresh installation: nothing stored, taxonomy and localization initialised.
  const EMPTY := Db([], [], [], map[], map[], [], [], [], [], true, 0, 0, [])

  /** The textual checks kept abstract: Markdown, languages, URLs, English text, letter case. */
  datatype Rules = Rules(
    prose: (Prose, bool) -> Option<Fault>,
    english: (Kind, Payload, English, bool) -> Option<Fault>,
    source: (string, bool) -> bool,
    comment: (string, bool) -> bool,
    markdown: string -> bool,
    website: string -> bool,
    assetUrl: string -> bool,
    lower: char -> char)

  const RELATION_LIMIT := 100
  const ORDER_LIMIT := 1000000

  predicate Row<T>(table: seq<T>, id: int) {
    0 < id <= |table|
  }

  function At<T>(table: seq<T>, id: int): T
    requires Row(table, id)
  {
    table[id - 1]
  }

  function Set<T>(table: seq<T>, id: int, row: T): (t: seq<T>)
    requires Row(table, id)
  {
    table[id - 1 := row]
  }

  predicate Public(c: Item) {
    c.published.Some? && c.archivedAt.None?
  }
}
