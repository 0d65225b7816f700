/**
 * The relational store declared in src/db/schema.ts: three closed enums, six
 * row kinds, the primary keys, unique constraints and column domains, the
 * foreign keys with their `onDelete` rules, and the insert defaults.
 *
 * A store is a value: one map per table, keyed by the table's primary key.
 * Every statement is a function from a store to a new store or to the error
 * PostgreSQL raises, and `Valid` is the conjunction of every declared
 * constraint.
 */
module Schema {
  import opened Wrappers

  type ClerkUserId = string
  /** A `uuid` column's value, taken to be in one canonical spelling; parsing and case folding are not modelled. */
  type Uuid = string
  /** An abstract clock value; the model never reads a real clock. */
  type Timestamp = int
  /** The text of a `jsonb` value; its structure plays no part in any constraint. */
  type Json = string

  // ---------------------------------------------------------------------------
  // Column domains: PostgreSQL `integer`/`serial` are 32-bit, `bigint` 64-bit.

  const Int32Min: int := -0x8000_0000
  const Int32Max: int := 0x7FFF_FFFF
  const Int64Min: int := -0x8000_0000_0000_0000
  const Int64Max: int := 0x7FFF_FFFF_FFFF_FFFF

  predicate IsInt32(n: int) { Int32Min <= n <= Int32Max }
  predicate IsInt64(n: int) { Int64Min <= n <= Int64Max }

  /** Declared `varchar` lengths. */
  const PlatformNameLength: nat := 50
  const TitleLength: nat := 255
  const MimeTypeLength: nat := 100

  // ---------------------------------------------------------------------------
  // Enums. Each is a closed set: a column of the enum type holds one of the
  // declared labels and nothing else.

  datatype ContentType = Image | Video | Carousel | TextOnly

  const ContentTypeLabels: seq<string> := ["image", "video", "carousel", "text_only"]

  function ContentTypeLabel(t: ContentType): string {
    match t
    case Image => "image"
    case Video => "video"
    case Carousel => "carousel"
    case TextOnly => "text_only"
  }

  /** The enum value a label denotes; only the declared labels denote one. */
  function ParseContentType(l: string): (r: Option<ContentType>)
    ensures r.Some? <==> l in ContentTypeLabels
    ensures r.Some? ==> ContentTypeLabel(r.value) == l
  {
    if l == "image" then Some(Image)
    else if l == "video" then Some(Video)
    else if l == "carousel" then Some(Carousel)
    else if l == "text_only" then Some(TextOnly)
    else None
  }

  datatype ScheduleStatus = Pending | Processing | Posted | Failed | Cancelled

  const ScheduleStatusLabels: seq<string> := ["pending", "processing", "posted", "failed", "cancelled"]

  function ScheduleStatusLabel(t: ScheduleStatus): string {
    match t
    case Pending => "pending"
    case Processing => "processing"
    case Posted => "posted"
    case Failed => "failed"
    case Cancelled => "cancelled"
  }

  function ParseScheduleStatus(l: string): (r: Option<ScheduleStatus>)
    ensures r.Some? <==> l in ScheduleStatusLabels
    ensures r.Some? ==> ScheduleStatusLabel(r.value) == l
  {
    if l == "pending" then Some(Pending)
    else if l == "processing" then Some(Processing)
    else if l == "posted" then Some(Posted)
    else if l == "failed" then Some(Failed)
    else if l == "cancelled" then Some(ScheduleStatus.Cancelled)
    else None
  }

  datatype SubscriptionStatus = Free | Premium | Trial | Cancelled | PastDue

  const SubscriptionStatusLabels: seq<string> := ["free", "premium", "trial", "cancelled", "past_due"]

  function SubscriptionStatusLabel(t: SubscriptionStatus): string {
    match t
    case Free => "free"
    case Premium => "premium"
    case Trial => "trial"
    case Cancelled => "cancelled"
    case PastDue => "past_due"
  }

  function ParseSubscriptionStatus(l: string): (r: Option<SubscriptionStatus>)
    ensures r.Some? <==> l in SubscriptionStatusLabels
    ensures r.Some? ==> SubscriptionStatusLabel(r.value) == l
  {
    if l == "free" then Some(Free)
    else if l == "premium" then Some(Premium)
    else if l == "trial" then Some(Trial)
    else if l == "cancelled" then Some(SubscriptionStatus.Cancelled)
    else if l == "past_due" then Some(PastDue)
    else None
  }

  /** Labels are distinct, so every enum value survives the trip to its label and back. */
  lemma EnumLabelsRoundTrip(c: ContentType, p: ScheduleStatus, u: SubscriptionStatus)
    ensures ParseContentType(ContentTypeLabel(c)) == Some(c)
    ensures ParseScheduleStatus(ScheduleStatusLabel(p)) == Some(p)
    ensures ParseSubscriptionStatus(SubscriptionStatusLabel(u)) == Some(u)
  {
  }

  // ---------------------------------------------------------------------------
  // Rows. A nullable column is an `Option`; a `notNull` column is a plain value.

  datatype User = User(
    clerkUserId: ClerkUserId,
    email: string,
    subscriptionStatus: Option<SubscriptionStatus>,
    onboardingCompleted: bool,
    createdAt: Timestamp,
    updatedAt: Timestamp)

  datatype SocialPlatform = SocialPlatform(
    id: int,
    name: string,
    apiBaseUrl: Option<string>,
    iconUrl: Option<string>,
    createdAt: Timestamp)

  datatype ConnectedAccount = ConnectedAccount(
    id: Uuid,
    userId: ClerkUserId,
    platformId: int,
    platformUserId: string,
    usernameOnPlatform: Option<string>,
    accessToken: string,
    refreshToken: Option<string>,
    tokenExpiresAt: Option<Timestamp>,
    scopes: Option<Json>,
    lastSyncedAt: Option<Timestamp>,
    createdAt: Timestamp,
    updatedAt: Timestamp)

  datatype ContentItem = ContentItem(
    id: Uuid,
    userId: ClerkUserId,
    title: Option<string>,
    caption: Option<string>,
    contentType: ContentType,
    createdAt: Timestamp,
    updatedAt: Timestamp)

  datatype MediaAsset = MediaAsset(
    id: Uuid,
    contentItemId: Uuid,
    userId: ClerkUserId,
    storagePath: string,
    fileName: Option<string>,
    mimeType: string,
    fileSizeBytes: Option<int>,
    metadata: Option<Json>,
    orderInCarousel: int,
    uploadedAt: Timestamp)

  datatype ScheduledPost = ScheduledPost(
    id: Uuid,
    userId: ClerkUserId,
    contentItemId: Uuid,
    connectedAccountId: Uuid,
    scheduledAt: Timestamp,
    status: ScheduleStatus,
    postedAt: Option<Timestamp>,
    platformPostId: Option<string>,
    failureReason: Option<string>,
    retryCount: int,
    platformSpecificOptions: Option<Json>,
    createdAt: Timestamp,
    updatedAt: Timestamp)

  /** The six tables, each keyed by its primary key column. */
  datatype Store = Store(
    users: map<ClerkUserId, User>,
    platforms: map<int, SocialPlatform>,
    accounts: map<Uuid, ConnectedAccount>,
    contents: map<Uuid, ContentItem>,
    media: map<Uuid, MediaAsset>,
    posts: map<Uuid, ScheduledPost>)

  const EmptyStore: Store := Store(map[], map[], map[], map[], map[], map[])

  // ---------------------------------------------------------------------------
  // Constraints.

  // Each table's own constraints: every row sits under its primary key, the
  // unique columns are unique, and every value fits its column's type.

  ghost predicate UsersTable(users: map<ClerkUserId, User>) {
    && (forall k | k in users :: users[k].clerkUserId == k)
    && (forall j, k | j in users && k in users && j != k :: users[j].email != users[k].email)
  }

  ghost predicate PlatformsTable(platforms: map<int, SocialPlatform>) {
    && (forall k | k in platforms :: platforms[k].id == k && PlatformInDomain(platforms[k]))
    && (forall j, k | j in platforms && k in platforms && j != k :: platforms[j].name != platforms[k].name)
  }

  ghost predicate AccountsTable(accounts: map<Uuid, ConnectedAccount>) {
    && (forall k | k in accounts :: accounts[k].id == k && AccountInDomain(accounts[k]))
    && (forall j, k | j in accounts && k in accounts && j != k :: !SameConnection(accounts[j], accounts[k]))
  }

  ghost predicate ContentsTable(contents: map<Uuid, ContentItem>) {
    forall k | k in contents :: contents[k].id == k && ContentInDomain(contents[k])
  }

  ghost predicate MediaTable(media: map<Uuid, MediaAsset>) {
    forall k | k in media :: media[k].id == k && MediaInDomain(media[k])
  }

  ghost predicate PostsTable(posts: map<Uuid, ScheduledPost>) {
    forall k | k in posts :: posts[k].id == k && PostInDomain(posts[k])
  }

  /** Some user row already holds `email`. */
  predicate EmailTaken(users: map<ClerkUserId, User>, email: string) {
    exists k | k in users :: users[k].email == email
  }

  /** Two connected accounts that the unique index on (user, platform, platform user) would clash on. */
  predicate SameConnection(x: ConnectedAccount, y: ConnectedAccount) {
    x.userId == y.userId && x.platformId == y.platformId && x.platformUserId == y.platformUserId
  }

  predicate ConnectionTaken(accounts: map<Uuid, ConnectedAccount>, row: ConnectedAccount) {
    exists k | k in accounts :: SameConnection(accounts[k], row)
  }

  predicate PlatformInDomain(p: SocialPlatform) { IsInt32(p.id) && |p.name| <= PlatformNameLength }
  predicate AccountInDomain(a: ConnectedAccount) { IsInt32(a.platformId) }
  predicate ContentInDomain(c: ContentItem) { c.title.Some? ==> |c.title.value| <= TitleLength }
  predicate MediaInDomain(m: MediaAsset) {
    && |m.mimeType| <= MimeTypeLength
    && (m.fileSizeBytes.Some? ==> IsInt64(m.fileSizeBytes.value))
    && IsInt32(m.orderInCarousel)
  }
  predicate PostInDomain(p: ScheduledPost) { IsInt32(p.retryCount) }

  // The foreign keys: every reference points at an existing row.

  ghost predicate AccountRefs(accounts: map<Uuid, ConnectedAccount>, users: map<ClerkUserId, User>, platforms: map<int, SocialPlatform>) {
    forall k | k in accounts :: accounts[k].userId in users && accounts[k].platformId in platforms
  }

  ghost predicate ContentRefs(contents: map<Uuid, ContentItem>, users: map<ClerkUserId, User>) {
    forall k | k in contents :: contents[k].userId in users
  }

  ghost predicate MediaRefs(media: map<Uuid, MediaAsset>, contents: map<Uuid, ContentItem>, users: map<ClerkUserId, User>) {
    forall k | k in media :: media[k].contentItemId in contents && media[k].userId in users
  }

  ghost predicate PostRefs(posts: map<Uuid, ScheduledPost>, users: map<ClerkUserId, User>,
                           contents: map<Uuid, ContentItem>, accounts: map<Uuid, ConnectedAccount>) {
    forall k | k in posts ::
      posts[k].userId in users && posts[k].contentItemId in contents && posts[k].connectedAccountId in accounts
  }

  ghost predicate TablesValid(s: Store) {
    && UsersTable(s.users) && PlatformsTable(s.platforms) && AccountsTable(s.accounts)
    && ContentsTable(s.contents) && MediaTable(s.media) && PostsTable(s.posts)
  }

  ghost predicate ForeignKeys(s: Store) {
    && AccountRefs(s.accounts, s.users, s.platforms)
    && ContentRefs(s.contents, s.users)
    && MediaRefs(s.media, s.contents, s.users)
    && PostRefs(s.posts, s.users, s.contents, s.accounts)
  }

  /** Every constraint the schema declares. */
  ghost predicate Valid(s: Store) {
    TablesValid(s) && ForeignKeys(s)
  }

  lemma EmptyStoreValid()
    ensures Valid(EmptyStore)
  {
  }

  ghost predicate SubMap<K, V>(m: map<K, V>, n: map<K, V>) {
    forall k | k in m :: k in n && n[k] == m[k]
  }

  /** `t` keeps some rows of `s`, each unchanged. */
  ghost predicate SubStore(t: Store, s: Store) {
    && SubMap(t.users, s.users)
    && SubMap(t.platforms, s.platforms)
    && SubMap(t.accounts, s.accounts)
    && SubMap(t.contents, s.contents)
    && SubMap(t.media, s.media)
    && SubMap(t.posts, s.posts)
  }

  /** Dropping rows keeps keys, uniqueness and column domains; only the foreign keys can break. */
  lemma SubStoreKeepsLocalConstraints(t: Store, s: Store)
    requires SubStore(t, s) && TablesValid(s)
    ensures TablesValid(t)
  {
  }

  // ---------------------------------------------------------------------------
  // Errors PostgreSQL raises for the constraints above.

  datatype Violation =
    | UniqueViolation      // 23505: primary key or unique index
    | ForeignKeyViolation  // 23503: a reference to a missing row, or a restricted delete
    | StringTooLong        // 22001: longer than the varchar length
    | NumericOutOfRange    // 22003: outside the integer column's width

  // ---------------------------------------------------------------------------
  // Insert values: the columns with a default may be omitted (`None`).

  datatype UserValues = UserValues(
    clerkUserId: ClerkUserId,
    email: string,
    subscriptionStatus: Option<SubscriptionStatus>,
    onboardingCompleted: Option<bool>,
    createdAt: Option<Timestamp>,
    updatedAt: Option<Timestamp>)

  /** The row an insert of `v` stores: `onboardingCompleted` defaults to false, timestamps to now. */
  function UserRow(v: UserValues, now: Timestamp): (r: User)
    ensures r.clerkUserId == v.clerkUserId && r.email == v.email && r.subscriptionStatus == v.subscriptionStatus
    ensures v.onboardingCompleted.None? ==> !r.onboardingCompleted
    ensures v.onboardingCompleted.Some? ==> r.onboardingCompleted == v.onboardingCompleted.value
    ensures v.createdAt.None? ==> r.createdAt == now
    ensures v.createdAt.Some? ==> r.createdAt == v.createdAt.value
    ensures v.updatedAt.None? ==> r.updatedAt == now
    ensures v.updatedAt.Some? ==> r.updatedAt == v.updatedAt.value
  {
    User(v.clerkUserId, v.email, v.subscriptionStatus, v.onboardingCompleted.GetOr(false),
         v.createdAt.GetOr(now), v.updatedAt.GetOr(now))
  }

  datatype ConnectedAccountValues = ConnectedAccountValues(
    id: Option<Uuid>,
    userId: ClerkUserId,
    platformId: int,
    platformUserId: string,
    usernameOnPlatform: Option<string>,
    accessToken: string,
    refreshToken: Option<string>,
    tokenExpiresAt: Option<Timestamp>,
    scopes: Option<Json>,
    lastSyncedAt: Option<Timestamp>,
    createdAt: Option<Timestamp>,
    updatedAt: Option<Timestamp>)

  /** `randomId` stands for the database's random uuid; both timestamps default to now. */
  function ConnectedAccountRow(v: ConnectedAccountValues, randomId: Uuid, now: Timestamp): (r: ConnectedAccount)
    ensures r.userId == v.userId && r.platformId == v.platformId && r.platformUserId == v.platformUserId
    ensures r.usernameOnPlatform == v.usernameOnPlatform && r.accessToken == v.accessToken
    ensures r.refreshToken == v.refreshToken && r.tokenExpiresAt == v.tokenExpiresAt
    ensures r.scopes == v.scopes && r.lastSyncedAt == v.lastSyncedAt
    ensures v.id.None? ==> r.id == randomId
    ensures v.id.Some? ==> r.id == v.id.value
    ensures v.createdAt.None? ==> r.createdAt == now
    ensures v.createdAt.Some? ==> r.createdAt == v.createdAt.value
    ensures v.updatedAt.None? ==> r.updatedAt == now
    ensures v.updatedAt.Some? ==> r.updatedAt == v.updatedAt.value
  {
    ConnectedAccount(v.id.GetOr(randomId), v.userId, v.platformId, v.platformUserId, v.usernameOnPlatform,
                     v.accessToken, v.refreshToken, v.tokenExpiresAt, v.scopes, v.lastSyncedAt,
                     v.createdAt.GetOr(now), v.updatedAt.GetOr(now))
  }

  datatype ContentItemValues = ContentItemValues(
    id: Option<Uuid>,
    userId: ClerkUserId,
    title: Option<string>,
    caption: Option<string>,
    contentType: ContentType,
    createdAt: Option<Timestamp>,
    updatedAt: Option<Timestamp>)

  /** `randomId` stands for the database's random uuid; both timestamps default to now. */
  function ContentItemRow(v: ContentItemValues, randomId: Uuid, now: Timestamp): (r: ContentItem)
    ensures r.userId == v.userId && r.title == v.title && r.caption == v.caption && r.contentType == v.contentType
    ensures v.id.None? ==> r.id == randomId
    ensures v.id.Some? ==> r.id == v.id.value
    ensures v.createdAt.None? ==> r.createdAt == now
    ensures v.createdAt.Some? ==> r.createdAt == v.createdAt.value
    ensures v.updatedAt.None? ==> r.updatedAt == now
    ensures v.updatedAt.Some? ==> r.updatedAt == v.updatedAt.value
  {
    ContentItem(v.id.GetOr(randomId), v.userId, v.title, v.caption, v.contentType,
                v.createdAt.GetOr(now), v.updatedAt.GetOr(now))
  }

  datatype MediaAssetValues = MediaAssetValues(
    id: Option<Uuid>,
    contentItemId: Uuid,
    userId: ClerkUserId,
    storagePath: string,
    fileName: Option<string>,
    mimeType: string,
    fileSizeBytes: Option<int>,
    metadata: Option<Json>,
    orderInCarousel: Option<int>,
    uploadedAt: Option<Timestamp>)

  /** `randomId` stands for the database's random uuid; `orderInCarousel` defaults to 0. */
  function MediaAssetRow(v: MediaAssetValues, randomId: Uuid, now: Timestamp): (r: MediaAsset)
    ensures r.contentItemId == v.contentItemId && r.userId == v.userId && r.mimeType == v.mimeType
    ensures r.storagePath == v.storagePath && r.fileName == v.fileName
    ensures r.fileSizeBytes == v.fileSizeBytes && r.metadata == v.metadata
    ensures v.id.None? ==> r.id == randomId
    ensures v.id.Some? ==> r.id == v.id.value
    ensures v.orderInCarousel.None? ==> r.orderInCarousel == 0
    ensures v.orderInCarousel.Some? ==> r.orderInCarousel == v.orderInCarousel.value
    ensures v.uploadedAt.None? ==> r.uploadedAt == now
    ensures v.uploadedAt.Some? ==> r.uploadedAt == v.uploadedAt.value
  {
    MediaAsset(v.id.GetOr(randomId), v.contentItemId, v.userId, v.storagePath, v.fileName, v.mimeType,
               v.fileSizeBytes, v.metadata, v.orderInCarousel.GetOr(0), v.uploadedAt.GetOr(now))
  }

  datatype ScheduledPostValues = ScheduledPostValues(
    id: Option<Uuid>,
    userId: ClerkUserId,
    contentItemId: Uuid,
    connectedAccountId: Uuid,
    scheduledAt: Timestamp,
    status: Option<ScheduleStatus>,
    postedAt: Option<Timestamp>,
    platformPostId: Option<string>,
    failureReason: Option<string>,
    retryCount: Option<int>,
    platformSpecificOptions: Option<Json>,
    createdAt: Option<Timestamp>,
    updatedAt: Option<Timestamp>)

  /** A new scheduled post is `pending` with no retries unless the insert says otherwise. */
  function ScheduledPostRow(v: ScheduledPostValues, randomId: Uuid, now: Timestamp): (r: ScheduledPost)
    ensures r.userId == v.userId && r.contentItemId == v.contentItemId && r.connectedAccountId == v.connectedAccountId
    ensures r.scheduledAt == v.scheduledAt && r.postedAt == v.postedAt && r.platformPostId == v.platformPostId
    ensures r.failureReason == v.failureReason && r.platformSpecificOptions == v.platformSpecificOptions
    ensures v.id.None? ==> r.id == randomId
    ensures v.id.Some? ==> r.id == v.id.value
    ensures v.status.None? ==> r.status == Pending
    ensures v.status.Some? ==> r.status == v.status.value
    ensures v.retryCount.None? ==> r.retryCount == 0
    ensures v.retryCount.Some? ==> r.retryCount == v.retryCount.value
    ensures v.createdAt.None? ==> r.createdAt == now
    ensures v.createdAt.Some? ==> r.createdAt == v.createdAt.value
    ensures v.updatedAt.None? ==> r.updatedAt == now
    ensures v.updatedAt.Some? ==> r.updatedAt == v.updatedAt.value
  {
    ScheduledPost(v.id.GetOr(randomId), v.userId, v.contentItemId, v.connectedAccountId, v.scheduledAt,
                  v.status.GetOr(Pending), v.postedAt, v.platformPostId, v.failureReason,
                  v.retryCount.GetOr(0), v.platformSpecificOptions, v.createdAt.GetOr(now), v.updatedAt.GetOr(now))
  }

  // ---------------------------------------------------------------------------
  // Inserts and updates. A statement either applies in full or raises.
  // PostgreSQL checks a value against its column type when it builds the row,
  // the unique indexes as it stores the row, and the foreign keys at the end
  // of the statement; the checks below come in that order.

  function InsertUser(s: Store, row: User): Result<Store, Violation> {
    if row.clerkUserId in s.users || EmailTaken(s.users, row.email) then Err(UniqueViolation)
    else Ok(s.(users := s.users[row.clerkUserId := row]))
  }

  /** `INSERT ... ON CONFLICT DO NOTHING` with no conflict target: a unique violation skips the row. */
  function OnConflictDoNothing(r: Result<Store, Violation>, s: Store): Result<Store, Violation> {
    if r.Err? && r.error == UniqueViolation then Ok(s) else r
  }

  function InsertConnectedAccount(s: Store, row: ConnectedAccount): Result<Store, Violation> {
    if !AccountInDomain(row) then Err(NumericOutOfRange)
    else if row.id in s.accounts || ConnectionTaken(s.accounts, row) then Err(UniqueViolation)
    else if row.userId !in s.users || row.platformId !in s.platforms then Err(ForeignKeyViolation)
    else Ok(s.(accounts := s.accounts[row.id := row]))
  }

  /**
   * Assigning `v` to a `varchar(n)` column: a value that fits is stored as it
   * is; a longer one whose excess characters are all spaces is truncated to
   * `n`; any other longer value is an error.
   */
  function VarcharValue(v: string, n: nat): (r: Option<string>)
    ensures r.None? <==> |v| > n && exists i | n <= i < |v| :: v[i] != ' '
    ensures r.Some? && |v| <= n ==> r.value == v
    ensures r.Some? && |v| > n ==> |r.value| == n && r.value == v[..n]
    ensures r.Some? ==> |r.value| <= n && forall i | |r.value| <= i < |v| :: v[i] == ' '
  {
    if |v| <= n then Some(v)
    else if forall i | n <= i < |v| :: v[i] == ' ' then Some(v[..n])
    else None
  }

  /** The content item as stored, its title coerced to `varchar(255)`. */
  function CoerceContentItem(row: ContentItem): (r: Result<ContentItem, Violation>)
    ensures r.Ok? ==> ContentInDomain(r.value) && r.value == row.(title := r.value.title)
    ensures r.Ok? ==> r.value.title == (if row.title.None? then None else VarcharValue(row.title.value, TitleLength))
    ensures r.Err? <==> row.title.Some? && VarcharValue(row.title.value, TitleLength).None?
    ensures r.Err? ==> r.error == StringTooLong
  {
    if row.title.None? then Ok(row)
    else match VarcharValue(row.title.value, TitleLength)
      case None => Err(StringTooLong)
      case Some(t) => Ok(row.(title := Some(t)))
  }

  /** The media asset as stored: its mime type coerced to `varchar(100)`, then its integers checked. */
  function CoerceMediaAsset(row: MediaAsset): (r: Result<MediaAsset, Violation>)
    ensures r.Ok? ==> MediaInDomain(r.value) && r.value == row.(mimeType := r.value.mimeType)
    ensures r.Ok? ==> Some(r.value.mimeType) == VarcharValue(row.mimeType, MimeTypeLength)
    ensures r.Ok? <==> && VarcharValue(row.mimeType, MimeTypeLength).Some?
                       && MediaInDomain(row.(mimeType := VarcharValue(row.mimeType, MimeTypeLength).value))
    ensures r.Err? && r.error == StringTooLong <==> VarcharValue(row.mimeType, MimeTypeLength).None?
    ensures r.Err? && r.error != StringTooLong ==> r.error == NumericOutOfRange
  {
    match VarcharValue(row.mimeType, MimeTypeLength)
    case None => Err(StringTooLong)
    case Some(m) =>
      var c := row.(mimeType := m);
      if MediaInDomain(c) then Ok(c) else Err(NumericOutOfRange)
  }

  function InsertContentItem(s: Store, row: ContentItem): Result<Store, Violation> {
    match CoerceContentItem(row)
    case Err(e) => Err(e)
    case Ok(c) =>
      if c.id in s.contents then Err(UniqueViolation)
      else if c.userId !in s.users then Err(ForeignKeyViolation)
      else Ok(s.(contents := s.contents[c.id := c]))
  }

  function InsertMediaAsset(s: Store, row: MediaAsset): Result<Store, Violation> {
    match CoerceMediaAsset(row)
    case Err(e) => Err(e)
    case Ok(c) =>
      if c.id in s.media then Err(UniqueViolation)
      else if c.contentItemId !in s.contents || c.userId !in s.users then Err(ForeignKeyViolation)
      else Ok(s.(media := s.media[c.id := c]))
  }

  function InsertScheduledPost(s: Store, row: ScheduledPost): Result<Store, Violation> {
    if !PostInDomain(row) then Err(NumericOutOfRange)
    else if row.id in s.posts then Err(UniqueViolation)
    else if row.userId !in s.users || row.contentItemId !in s.contents || row.connectedAccountId !in s.accounts then
      Err(ForeignKeyViolation)
    else Ok(s.(posts := s.posts[row.id := row]))
  }

  /**
   * `UPDATE users SET email = ..., updated_at = ... WHERE clerk_user_id = id`:
   * no matching row updates nothing; an email held by another row is a unique violation.
   */
  function UpdateUser(s: Store, id: ClerkUserId, email: Option<string>, updatedAt: Timestamp): Result<Store, Violation> {
    if id !in s.users then Ok(s)
    else
      var row := s.users[id].(email := email.GetOr(s.users[id].email), updatedAt := updatedAt);
      if EmailTaken(s.users - {id}, row.email) then Err(UniqueViolation)
      else Ok(s.(users := s.users[id := row]))
  }

  // ---------------------------------------------------------------------------
  // Deletes. `onDelete: 'cascade'` removes the referencing rows with the
  // referenced one; `onDelete: 'restrict'` refuses the delete instead.

  /** The deleted users that exist. */
  function RemovedUsers(s: Store, u: set<ClerkUserId>): set<ClerkUserId> {
    set k | k in s.users && k in u
  }

  /** Accounts deleted directly or through their user. */
  function RemovedAccounts(s: Store, u: set<ClerkUserId>, a: set<Uuid>): set<Uuid> {
    set k | k in s.accounts && (k in a || s.accounts[k].userId in RemovedUsers(s, u))
  }

  /** Content items deleted directly or through their user. */
  function RemovedContents(s: Store, u: set<ClerkUserId>, c: set<Uuid>): set<Uuid> {
    set k | k in s.contents && (k in c || s.contents[k].userId in RemovedUsers(s, u))
  }

  /**
   * Deleting the users `u`, the connected accounts `a` and the content items `c`
   * in one statement, with every cascade the schema declares: accounts and
   * content items go with their user; media assets with their user or content
   * item; scheduled posts with their user, content item or connected account.
   * Platforms are never referenced by the deleted rows' cascades.
   */
  function DeleteCascading(s: Store, u: set<ClerkUserId>, a: set<Uuid>, c: set<Uuid>): (r: Store)
    ensures SubStore(r, s)
    ensures r.users.Keys == s.users.Keys - u && r.platforms == s.platforms
    ensures r.accounts.Keys !! a && r.contents.Keys !! c
  {
    var du := RemovedUsers(s, u);
    var da := RemovedAccounts(s, u, a);
    var dc := RemovedContents(s, u, c);
    s.(users := s.users - u,
       accounts := s.accounts - da,
       contents := s.contents - dc,
       media := map k | k in s.media && s.media[k].userId !in du && s.media[k].contentItemId !in dc :: s.media[k],
       posts := map k | k in s.posts && s.posts[k].userId !in du && s.posts[k].contentItemId !in dc
                                     && s.posts[k].connectedAccountId !in da :: s.posts[k])
  }

  /** The cascade keeps every constraint. */
  lemma DeleteCascadingValid(s: Store, u: set<ClerkUserId>, a: set<Uuid>, c: set<Uuid>)
    ensures Valid(s) ==> Valid(DeleteCascading(s, u, a, c))
  {
  }

  /**
   * The cascade removes no more than it must: any sub-store of `s` that keeps
   * its foreign keys and holds none of the deleted rows lies within the result.
   * With DeleteCascadingValid, the result is the greatest such sub-store, so a
   * row is removed exactly when it references a deleted row, directly or
   * through another removed row.
   */
  lemma DeleteCascadingIsGreatest(s: Store, u: set<ClerkUserId>, a: set<Uuid>, c: set<Uuid>, t: Store)
    requires SubStore(t, s) && ForeignKeys(t)
    requires t.users.Keys !! u && t.accounts.Keys !! a && t.contents.Keys !! c
    ensures SubStore(t, DeleteCascading(s, u, a, c))
  {
  }

  /** `DELETE FROM users WHERE clerk_user_id = uid`. */
  function DeleteUser(s: Store, uid: ClerkUserId): (r: Store)
    ensures uid !in r.users && SubStore(r, s)
    ensures r.users == s.users - {uid}
    ensures Valid(s) ==> Valid(r)
  {
    DeleteCascadingValid(s, {uid}, {}, {});
    DeleteCascading(s, {uid}, {}, {})
  }

  /** `DELETE FROM content_items WHERE id = cid`. */
  function DeleteContentItem(s: Store, cid: Uuid): (r: Store)
    ensures cid !in r.contents && SubStore(r, s)
    ensures Valid(s) ==> Valid(r)
  {
    DeleteCascadingValid(s, {}, {}, {cid});
    DeleteCascading(s, {}, {}, {cid})
  }

  /** `DELETE FROM user_connected_accounts WHERE id = aid`. */
  function DeleteConnectedAccount(s: Store, aid: Uuid): (r: Store)
    ensures aid !in r.accounts && SubStore(r, s)
    ensures Valid(s) ==> Valid(r)
  {
    DeleteCascadingValid(s, {}, {aid}, {});
    DeleteCascading(s, {}, {aid}, {})
  }

  predicate PlatformReferenced(s: Store, pid: int) {
    exists k | k in s.accounts :: s.accounts[k].platformId == pid
  }

  /** `DELETE FROM social_platforms WHERE id = pid`, refused while a connected account references it. */
  function DeletePlatform(s: Store, pid: int): Result<Store, Violation> {
    if pid in s.platforms && PlatformReferenced(s, pid) then Err(ForeignKeyViolation)
    else Ok(s.(platforms := s.platforms - {pid}))
  }

  // ---------------------------------------------------------------------------
  // What each statement promises.

  /** Adding a row under a fresh key keeps a map's other rows; the helpers below state each table's part. */
  lemma UsersTableAdd(users: map<ClerkUserId, User>, row: User)
    requires UsersTable(users) && row.clerkUserId !in users
    ensures UsersTable(users[row.clerkUserId := row]) <==> !EmailTaken(users, row.email)
  {
    var m := users[row.clerkUserId := row];
    if EmailTaken(users, row.email) {
      var k :| k in users && users[k].email == row.email;
      assert k in m && row.clerkUserId in m && m[k].email == m[row.clerkUserId].email;
    }
  }

  lemma AccountsTableAdd(accounts: map<Uuid, ConnectedAccount>, row: ConnectedAccount)
    requires AccountsTable(accounts) && row.id !in accounts
    ensures AccountsTable(accounts[row.id := row]) <==> AccountInDomain(row) && !ConnectionTaken(accounts, row)
  {
    var m := accounts[row.id := row];
    if ConnectionTaken(accounts, row) {
      var k :| k in accounts && SameConnection(accounts[k], row);
      assert k in m && row.id in m && k != row.id && SameConnection(m[k], m[row.id]);
    }
    if AccountInDomain(row) && !ConnectionTaken(accounts, row) {
      forall j, k | j in m && k in m && j != k ensures !SameConnection(m[j], m[k]) {
        if j == row.id {
          assert !SameConnection(accounts[k], row);
        } else if k == row.id {
          assert !SameConnection(accounts[j], row);
        }
      }
    }
    if AccountsTable(m) {
      assert row.id in m;
    }
  }

  /** An insert into `users` succeeds exactly when the key is new and the store with the row added keeps every constraint. */
  lemma InsertUserExact(s: Store, row: User)
    requires Valid(s)
    ensures InsertUser(s, row).Ok? <==>
              row.clerkUserId !in s.users && Valid(s.(users := s.users[row.clerkUserId := row]))
    ensures InsertUser(s, row).Ok? ==> InsertUser(s, row).value == s.(users := s.users[row.clerkUserId := row])
  {
    var t := s.(users := s.users[row.clerkUserId := row]);
    if row.clerkUserId !in s.users {
      UsersTableAdd(s.users, row);
      assert ForeignKeys(t);
    }
  }

  /** The same for `user_connected_accounts`, which its triple index, its column type and two references can refuse. */
  lemma InsertConnectedAccountExact(s: Store, row: ConnectedAccount)
    requires Valid(s)
    ensures InsertConnectedAccount(s, row).Ok? <==>
              row.id !in s.accounts && Valid(s.(accounts := s.accounts[row.id := row]))
    ensures InsertConnectedAccount(s, row).Ok? ==>
              InsertConnectedAccount(s, row).value == s.(accounts := s.accounts[row.id := row])
  {
    var t := s.(accounts := s.accounts[row.id := row]);
    if row.id !in s.accounts {
      AccountsTableAdd(s.accounts, row);
      assert PostRefs(t.posts, t.users, t.contents, t.accounts);
      assert AccountRefs(t.accounts, t.users, t.platforms) <==> row.userId in s.users && row.platformId in s.platforms by {
        if AccountRefs(t.accounts, t.users, t.platforms) {
          assert row.id in t.accounts;
        }
      }
    }
  }

  /**
   * An insert into `content_items` fails as the title's coercion fails;
   * otherwise it succeeds exactly when the key is new and the store with the
   * coerced row added keeps every constraint.
   */
  lemma InsertContentItemExact(s: Store, row: ContentItem)
    requires Valid(s)
    ensures var c := CoerceContentItem(row);
      var r := InsertContentItem(s, row);
      && (c.Err? ==> r == Err(c.error))
      && (c.Ok? ==> (r.Ok? <==> row.id !in s.contents && Valid(s.(contents := s.contents[row.id := c.value]))))
      && (r.Ok? ==> c.Ok? && r.value == s.(contents := s.contents[row.id := c.value]))
  {
    if CoerceContentItem(row).Ok? && row.id !in s.contents {
      var c := CoerceContentItem(row).value;
      var t := s.(contents := s.contents[row.id := c]);
      assert MediaRefs(t.media, t.contents, t.users);
      assert PostRefs(t.posts, t.users, t.contents, t.accounts);
      assert ContentsTable(t.contents) && ContentRefs(t.contents, t.users) <==> c.userId in s.users by {
        if ContentsTable(t.contents) && ContentRefs(t.contents, t.users) {
          assert row.id in t.contents;
        }
      }
    }
  }

  /** The same for `media_assets`, whose mime type is coerced and whose integers are checked first. */
  lemma InsertMediaAssetExact(s: Store, row: MediaAsset)
    requires Valid(s)
    ensures var c := CoerceMediaAsset(row);
      var r := InsertMediaAsset(s, row);
      && (c.Err? ==> r == Err(c.error))
      && (c.Ok? ==> (r.Ok? <==> row.id !in s.media && Valid(s.(media := s.media[row.id := c.value]))))
      && (r.Ok? ==> c.Ok? && r.value == s.(media := s.media[row.id := c.value]))
  {
    if CoerceMediaAsset(row).Ok? && row.id !in s.media {
      var c := CoerceMediaAsset(row).value;
      var t := s.(media := s.media[row.id := c]);
      assert MediaTable(t.media) && MediaRefs(t.media, t.contents, t.users) <==>
             c.contentItemId in s.contents && c.userId in s.users by {
        if MediaTable(t.media) && MediaRefs(t.media, t.contents, t.users) {
          assert row.id in t.media;
        }
      }
    }
  }

  lemma InsertScheduledPostExact(s: Store, row: ScheduledPost)
    requires Valid(s)
    ensures InsertScheduledPost(s, row).Ok? <==>
              row.id !in s.posts && Valid(s.(posts := s.posts[row.id := row]))
    ensures InsertScheduledPost(s, row).Ok? ==>
              InsertScheduledPost(s, row).value == s.(posts := s.posts[row.id := row])
  {
    var t := s.(posts := s.posts[row.id := row]);
    if row.id !in s.posts {
      assert PostsTable(t.posts) && PostRefs(t.posts, t.users, t.contents, t.accounts) <==>
             PostInDomain(row) && row.userId in s.users && row.contentItemId in s.contents
             && row.connectedAccountId in s.accounts by {
        if PostsTable(t.posts) && PostRefs(t.posts, t.users, t.contents, t.accounts) {
          assert row.id in t.posts;
        }
      }
    }
  }

  /**
   * An update of an existing user succeeds exactly when the updated store keeps
   * every constraint; it changes that one row's email (when one is given) and
   * `updatedAt`, and nothing else. Updating a missing user changes nothing.
   */
  lemma UpdateUserExact(s: Store, id: ClerkUserId, email: Option<string>, now: Timestamp)
    requires Valid(s)
    ensures id !in s.users ==> UpdateUser(s, id, email, now) == Ok(s)
    ensures id in s.users ==>
              var row := s.users[id].(email := if email.Some? then email.value else s.users[id].email, updatedAt := now);
              var t := s.(users := s.users[id := row]);
              && (UpdateUser(s, id, email, now).Ok? <==> Valid(t))
              && (UpdateUser(s, id, email, now).Ok? ==> UpdateUser(s, id, email, now).value == t)
  {
    if id in s.users {
      var row := s.users[id].(email := if email.Some? then email.value else s.users[id].email, updatedAt := now);
      var t := s.(users := s.users[id := row]);
      if EmailTaken(s.users - {id}, row.email) {
        var k :| k in s.users - {id} && s.users[k].email == row.email;
        assert k in t.users && id in t.users && t.users[k].email == t.users[id].email;
      } else {
        forall j, k | j in t.users && k in t.users && j != k ensures t.users[j].email != t.users[k].email {
          if j == id {
            assert k in s.users - {id};
          } else if k == id {
            assert j in s.users - {id};
          }
        }
      }
    }
  }

  /** Deleting a platform is refused exactly when removing it would leave a connected account dangling. */
  lemma DeletePlatformExact(s: Store, pid: int)
    requires Valid(s)
    ensures DeletePlatform(s, pid).Ok? <==> Valid(s.(platforms := s.platforms - {pid}))
    ensures DeletePlatform(s, pid).Ok? ==> DeletePlatform(s, pid).value == s.(platforms := s.platforms - {pid})
    ensures DeletePlatform(s, pid).Err? ==> DeletePlatform(s, pid).error == ForeignKeyViolation
  {
  }

  /** A delete that matches no row changes nothing. */
  lemma DeleteCascadingNothing(s: Store, u: set<ClerkUserId>, a: set<Uuid>, c: set<Uuid>)
    requires u !! s.users.Keys && a !! s.accounts.Keys && c !! s.contents.Keys
    ensures DeleteCascading(s, u, a, c) == s
  {
  }

  /** A repeated delete of the same user is a no-op. */
  lemma DeleteUserIdempotent(s: Store, uid: ClerkUserId)
    ensures DeleteUser(DeleteUser(s, uid), uid) == DeleteUser(s, uid)
  {
    DeleteCascadingNothing(DeleteUser(s, uid), {uid}, {}, {});
  }

  /**
   * Deleting a content item removes it, its media assets and its scheduled
   * posts; users, platforms and connected accounts are untouched.
   */
  lemma DeleteContentItemEffect(s: Store, cid: Uuid)
    requires cid in s.contents
    ensures var r := DeleteContentItem(s, cid);
      && r.users == s.users && r.platforms == s.platforms && r.accounts == s.accounts
      && r.contents == s.contents - {cid}
      && (forall k | k in s.media :: k in r.media <==> s.media[k].contentItemId != cid)
      && (forall k | k in s.posts :: k in r.posts <==> s.posts[k].contentItemId != cid)
  {
    var r := DeleteContentItem(s, cid);
    assert RemovedUsers(s, {}) == {};
    assert RemovedAccounts(s, {}, {}) == {};
    assert RemovedContents(s, {}, {cid}) == {cid};
    assert r.users == s.users;
    assert r.accounts == s.accounts;
  }

  /** Deleting a connected account removes it and its scheduled posts, and nothing else. */
  lemma DeleteConnectedAccountEffect(s: Store, aid: Uuid)
    requires aid in s.accounts
    ensures var r := DeleteConnectedAccount(s, aid);
      && r.users == s.users && r.platforms == s.platforms && r.contents == s.contents && r.media == s.media
      && r.accounts == s.accounts - {aid}
      && (forall k | k in s.posts :: k in r.posts <==> s.posts[k].connectedAccountId != aid)
  {
    var r := DeleteConnectedAccount(s, aid);
    assert RemovedUsers(s, {}) == {};
    assert RemovedAccounts(s, {}, {aid}) == {aid};
    assert RemovedContents(s, {}, {}) == {};
    assert r.users == s.users;
    assert r.contents == s.contents;
    assert r.media == s.media;
  }
}
