/**
 * The catalog's relational store: the six tables of the Drizzle schema
 * (anime, episodes, profiles, watchlist, watch_progress, reviews), the
 * three enum domains, the column defaults and NOT NULL columns applied on
 * insert, and the `ON DELETE CASCADE` foreign keys applied on delete.
 *
 * The store is a value: a map per table from primary key to row. An insert
 * returns the new store or the error the database would raise; a delete
 * returns the store with the row and everything that cascades from it gone.
 */
module Schema {
  import opened Results

  /** A `uuid` column value. */
  type Uuid = string

  /** A `timestamp` column value. */
  type Timestamp = int

  // ---------------------------------------------------------------------------
  // Enum domains

  datatype Status = Ongoing | Completed
  datatype ContentType = AnimeContent | CartoonContent
  datatype Role = User | Admin

  function StatusLabel(s: Status): string {
    match s
    case Ongoing => "Ongoing"
    case Completed => "Completed"
  }

  function ContentTypeLabel(c: ContentType): string {
    match c
    case AnimeContent => "anime"
    case CartoonContent => "cartoon"
  }

  function RoleLabel(r: Role): string {
    match r
    case User => "user"
    case Admin => "admin"
  }

  /** The database's reading of a literal for the `status` enum. */
  function ParseStatus(t: string): (r: Option<Status>)
    ensures r.Some? <==> t == "Ongoing" || t == "Completed"
    ensures r.Some? ==> StatusLabel(r.value) == t
  {
    if t == "Ongoing" then Some(Ongoing)
    else if t == "Completed" then Some(Completed)
    else None
  }

  /** The database's reading of a literal for the `content_type` enum. */
  function ParseContentType(t: string): (r: Option<ContentType>)
    ensures r.Some? <==> t == "anime" || t == "cartoon"
    ensures r.Some? ==> ContentTypeLabel(r.value) == t
  {
    if t == "anime" then Some(AnimeContent)
    else if t == "cartoon" then Some(CartoonContent)
    else None
  }

  /** The database's reading of a literal for the `role` enum. */
  function ParseRole(t: string): (r: Option<Role>)
    ensures r.Some? <==> t == "user" || t == "admin"
    ensures r.Some? ==> RoleLabel(r.value) == t
  {
    if t == "user" then Some(User)
    else if t == "admin" then Some(Admin)
    else None
  }

  // ---------------------------------------------------------------------------
  // Column types

  /** Range of a Postgres `integer` column. */
  const MinInt32: int := -0x8000_0000
  const MaxInt32: int := 0x7FFF_FFFF

  predicate IsInt32(n: int) {
    MinInt32 <= n <= MaxInt32
  }

  predicate FitsInt32(v: Option<int>) {
    v.Some? ==> IsInt32(v.value)
  }

  /** What the database raises when it refuses an insert. */
  datatype DbError =
    | NotNullViolation(column: string)
    | InvalidEnumValue(column: string, value: string)
    | IntegerOutOfRange(column: string)
    | DuplicateKey(table: string)
    | ForeignKeyViolation(column: string)

  // ---------------------------------------------------------------------------
  // Rows, as stored

  datatype Anime = Anime(
    id: Uuid,
    title: string,
    description: Option<string>,
    thumbnail_url: Option<string>,
    banner_url: Option<string>,
    genres: seq<string>,
    languages: Option<seq<string>>,
    season: Option<string>,
    release_year: Option<int>,
    status: Status,
    total_episodes: int,
    rating: real,
    next_episode_date: Option<Timestamp>,
    series_name: string,
    season_number: int,
    content_type: ContentType,
    created_at: Timestamp)

  datatype Episode = Episode(
    id: Uuid,
    anime_id: Uuid,
    episode_number: int,
    season_number: int,
    title: Option<string>,
    description: Option<string>,
    video_url: string,
    duration: Option<int>,
    thumbnail_url: Option<string>,
    created_at: Timestamp)

  datatype Profile = Profile(
    id: Uuid,
    email: Option<string>,
    username: Option<string>,
    avatar_url: Option<string>,
    role: Role,
    created_at: Timestamp)

  datatype WatchlistEntry = WatchlistEntry(
    id: Uuid,
    user_id: Uuid,
    anime_id: Uuid,
    added_at: Timestamp)

  datatype WatchProgress = WatchProgress(
    id: Uuid,
    user_id: Uuid,
    episode_id: Uuid,
    anime_id: Uuid,
    watched: bool,
    last_position: int,
    updated_at: Timestamp)

  datatype Review = Review(
    id: Uuid,
    user_id: Uuid,
    anime_id: Uuid,
    rating: int,
    comment: Option<string>,
    created_at: Timestamp,
    updated_at: Timestamp)

  // ---------------------------------------------------------------------------
  // Insert payloads: every column may be omitted, enum columns arrive as text

  datatype NewAnime = NewAnime(
    id: Option<Uuid>,
    title: Option<string>,
    description: Option<string>,
    thumbnail_url: Option<string>,
    banner_url: Option<string>,
    genres: Option<seq<string>>,
    languages: Option<seq<string>>,
    season: Option<string>,
    release_year: Option<int>,
    status: Option<string>,
    total_episodes: Option<int>,
    rating: Option<real>,
    next_episode_date: Option<Timestamp>,
    series_name: Option<string>,
    season_number: Option<int>,
    content_type: Option<string>,
    created_at: Option<Timestamp>)

  datatype NewEpisode = NewEpisode(
    id: Option<Uuid>,
    anime_id: Option<Uuid>,
    episode_number: Option<int>,
    season_number: Option<int>,
    title: Option<string>,
    description: Option<string>,
    video_url: Option<string>,
    duration: Option<int>,
    thumbnail_url: Option<string>,
    created_at: Option<Timestamp>)

  datatype NewProfile = NewProfile(
    id: Option<Uuid>,
    email: Option<string>,
    username: Option<string>,
    avatar_url: Option<string>,
    role: Option<string>,
    created_at: Option<Timestamp>)

  datatype NewWatchlistEntry = NewWatchlistEntry(
    id: Option<Uuid>,
    user_id: Option<Uuid>,
    anime_id: Option<Uuid>,
    added_at: Option<Timestamp>)

  datatype NewWatchProgress = NewWatchProgress(
    id: Option<Uuid>,
    user_id: Option<Uuid>,
    episode_id: Option<Uuid>,
    anime_id: Option<Uuid>,
    watched: Option<bool>,
    last_position: Option<int>,
    updated_at: Option<Timestamp>)

  datatype NewReview = NewReview(
    id: Option<Uuid>,
    user_id: Option<Uuid>,
    anime_id: Option<Uuid>,
    rating: Option<int>,
    comment: Option<string>,
    created_at: Option<Timestamp>,
    updated_at: Option<Timestamp>)

  // ---------------------------------------------------------------------------
  // Column checks used while building a row

  function NotNull<T>(v: Option<T>, column: string): Result<T, DbError> {
    if v.Some? then Ok(v.value) else Err(NotNullViolation(column))
  }

  function Int32Value(v: Option<int>, column: string): Result<Option<int>, DbError> {
    if FitsInt32(v) then Ok(v) else Err(IntegerOutOfRange(column))
  }

  function StatusValue(v: Option<string>, column: string): Result<Option<Status>, DbError> {
    match v
    case None => Ok(None)
    case Some(t) => if ParseStatus(t).Some? then Ok(ParseStatus(t)) else Err(InvalidEnumValue(column, t))
  }

  function ContentTypeValue(v: Option<string>, column: string): Result<Option<ContentType>, DbError> {
    match v
    case None => Ok(None)
    case Some(t) => if ParseContentType(t).Some? then Ok(ParseContentType(t)) else Err(InvalidEnumValue(column, t))
  }

  function RoleValue(v: Option<string>, column: string): Result<Option<Role>, DbError> {
    match v
    case None => Ok(None)
    case Some(t) => if ParseRole(t).Some? then Ok(ParseRole(t)) else Err(InvalidEnumValue(column, t))
  }

  // ---------------------------------------------------------------------------
  // Building rows: defaults, NOT NULL, enum and integer domains.
  // `generated` is the `defaultRandom()` id used when the payload has none,
  // `now` the `defaultNow()` time.

  function BuildAnime(p: NewAnime, generated: Uuid, now: Timestamp): (r: Result<Anime, DbError>)
    ensures r.Ok? <==>
      && p.title.Some? && p.series_name.Some?
      && (p.status.Some? ==> ParseStatus(p.status.value).Some?)
      && (p.content_type.Some? ==> ParseContentType(p.content_type.value).Some?)
      && FitsInt32(p.release_year) && FitsInt32(p.total_episodes) && FitsInt32(p.season_number)
    ensures r.Ok? ==>
      var a := r.value;
      && a.id == p.id.GetOr(generated)
      && a.title == p.title.value
      && a.series_name == p.series_name.value
      && a.description == p.description && a.thumbnail_url == p.thumbnail_url
      && a.banner_url == p.banner_url && a.languages == p.languages && a.season == p.season
      && a.release_year == p.release_year && a.next_episode_date == p.next_episode_date
      && a.genres == p.genres.GetOr([])
      && (p.status.None? ==> a.status == Ongoing)
      && (p.status.Some? ==> StatusLabel(a.status) == p.status.value)
      && a.total_episodes == p.total_episodes.GetOr(0)
      && a.rating == p.rating.GetOr(0.0)
      && a.season_number == p.season_number.GetOr(1)
      && (p.content_type.None? ==> a.content_type == AnimeContent)
      && (p.content_type.Some? ==> ContentTypeLabel(a.content_type) == p.content_type.value)
      && a.created_at == p.created_at.GetOr(now)
  {
    var releaseYear :- Int32Value(p.release_year, "anime.release_year");
    var status :- StatusValue(p.status, "anime.status");
    var totalEpisodes :- Int32Value(p.total_episodes, "anime.total_episodes");
    var seasonNumber :- Int32Value(p.season_number, "anime.season_number");
    var contentType :- ContentTypeValue(p.content_type, "anime.content_type");
    var title :- NotNull(p.title, "anime.title");
    var seriesName :- NotNull(p.series_name, "anime.series_name");
    Ok(Anime(
      p.id.GetOr(generated), title, p.description, p.thumbnail_url, p.banner_url,
      p.genres.GetOr([]), p.languages, p.season, releaseYear, status.GetOr(Ongoing),
      totalEpisodes.GetOr(0), p.rating.GetOr(0.0), p.next_episode_date, seriesName,
      seasonNumber.GetOr(1), contentType.GetOr(AnimeContent), p.created_at.GetOr(now)))
  }

  function BuildEpisode(p: NewEpisode, generated: Uuid, now: Timestamp): (r: Result<Episode, DbError>)
    ensures r.Ok? <==>
      && p.anime_id.Some? && p.episode_number.Some? && p.video_url.Some?
      && FitsInt32(p.episode_number) && FitsInt32(p.season_number) && FitsInt32(p.duration)
    ensures r.Ok? ==>
      var e := r.value;
      && e.id == p.id.GetOr(generated)
      && e.anime_id == p.anime_id.value
      && e.episode_number == p.episode_number.value
      && e.video_url == p.video_url.value
      && e.season_number == p.season_number.GetOr(1)
      && e.title == p.title && e.description == p.description
      && e.duration == p.duration && e.thumbnail_url == p.thumbnail_url
      && e.created_at == p.created_at.GetOr(now)
  {
    var episodeNumber :- Int32Value(p.episode_number, "episodes.episode_number");
    var seasonNumber :- Int32Value(p.season_number, "episodes.season_number");
    var duration :- Int32Value(p.duration, "episodes.duration");
    var animeId :- NotNull(p.anime_id, "episodes.anime_id");
    var number :- NotNull(episodeNumber, "episodes.episode_number");
    var videoUrl :- NotNull(p.video_url, "episodes.video_url");
    Ok(Episode(
      p.id.GetOr(generated), animeId, number, seasonNumber.GetOr(1), p.title, p.description,
      videoUrl, duration, p.thumbnail_url, p.created_at.GetOr(now)))
  }

  function BuildProfile(p: NewProfile, generated: Uuid, now: Timestamp): (r: Result<Profile, DbError>)
    ensures r.Ok? <==> (p.role.Some? ==> ParseRole(p.role.value).Some?)
    ensures r.Ok? ==>
      var u := r.value;
      && u.id == p.id.GetOr(generated)
      && u.email == p.email && u.username == p.username && u.avatar_url == p.avatar_url
      && (p.role.None? ==> u.role == User)
      && (p.role.Some? ==> RoleLabel(u.role) == p.role.value)
      && u.created_at == p.created_at.GetOr(now)
  {
    var role :- RoleValue(p.role, "profiles.role");
    Ok(Profile(p.id.GetOr(generated), p.email, p.username, p.avatar_url, role.GetOr(User), p.created_at.GetOr(now)))
  }

  function BuildWatchlistEntry(p: NewWatchlistEntry, generated: Uuid, now: Timestamp): (r: Result<WatchlistEntry, DbError>)
    ensures r.Ok? <==> p.user_id.Some? && p.anime_id.Some?
    ensures r.Ok? ==>
      var w := r.value;
      && w.id == p.id.GetOr(generated)
      && w.user_id == p.user_id.value && w.anime_id == p.anime_id.value
      && w.added_at == p.added_at.GetOr(now)
  {
    var userId :- NotNull(p.user_id, "watchlist.user_id");
    var animeId :- NotNull(p.anime_id, "watchlist.anime_id");
    Ok(WatchlistEntry(p.id.GetOr(generated), userId, animeId, p.added_at.GetOr(now)))
  }

  function BuildWatchProgress(p: NewWatchProgress, generated: Uuid, now: Timestamp): (r: Result<WatchProgress, DbError>)
    ensures r.Ok? <==>
      p.user_id.Some? && p.episode_id.Some? && p.anime_id.Some? && FitsInt32(p.last_position)
    ensures r.Ok? ==>
      var w := r.value;
      && w.id == p.id.GetOr(generated)
      && w.user_id == p.user_id.value && w.episode_id == p.episode_id.value
      && w.anime_id == p.anime_id.value
      && w.watched == p.watched.GetOr(false)
      && w.last_position == p.last_position.GetOr(0)
      && w.updated_at == p.updated_at.GetOr(now)
  {
    var lastPosition :- Int32Value(p.last_position, "watch_progress.last_position");
    var userId :- NotNull(p.user_id, "watch_progress.user_id");
    var episodeId :- NotNull(p.episode_id, "watch_progress.episode_id");
    var animeId :- NotNull(p.anime_id, "watch_progress.anime_id");
    Ok(WatchProgress(
      p.id.GetOr(generated), userId, episodeId, animeId, p.watched.GetOr(false),
      lastPosition.GetOr(0), p.updated_at.GetOr(now)))
  }

  function BuildReview(p: NewReview, generated: Uuid, now: Timestamp): (r: Result<Review, DbError>)
    ensures r.Ok? <==> p.user_id.Some? && p.anime_id.Some? && p.rating.Some? && IsInt32(p.rating.value)
    ensures r.Ok? ==>
      var v := r.value;
      && v.id == p.id.GetOr(generated)
      && v.user_id == p.user_id.value && v.anime_id == p.anime_id.value
      && v.rating == p.rating.value && v.comment == p.comment
      && v.created_at == p.created_at.GetOr(now) && v.updated_at == p.updated_at.GetOr(now)
  {
    var rating :- Int32Value(p.rating, "reviews.rating");
    var userId :- NotNull(p.user_id, "reviews.user_id");
    var animeId :- NotNull(p.anime_id, "reviews.anime_id");
    var value :- NotNull(rating, "reviews.rating");
    Ok(Review(
      p.id.GetOr(generated), userId, animeId, value, p.comment,
      p.created_at.GetOr(now), p.updated_at.GetOr(now)))
  }

  // ---------------------------------------------------------------------------
  // The store

  datatype Store = Store(
    anime: map<Uuid, Anime>,
    episodes: map<Uuid, Episode>,
    profiles: map<Uuid, Profile>,
    watchlist: map<Uuid, WatchlistEntry>,
    progress: map<Uuid, WatchProgress>,
    reviews: map<Uuid, Review>)

  const EmptyStore := Store(map[], map[], map[], map[], map[], map[])

  /** Every row is filed under its own primary key. */
  ghost predicate KeysMatch(s: Store) {
    && (forall k :: k in s.anime ==> s.anime[k].id == k)
    && (forall k :: k in s.episodes ==> s.episodes[k].id == k)
    && (forall k :: k in s.profiles ==> s.profiles[k].id == k)
    && (forall k :: k in s.watchlist ==> s.watchlist[k].id == k)
    && (forall k :: k in s.progress ==> s.progress[k].id == k)
    && (forall k :: k in s.reviews ==> s.reviews[k].id == k)
  }

  /** Every foreign key names an existing row of the table it references. */
  ghost predicate ReferencesResolve(s: Store) {
    && (forall k :: k in s.episodes ==> s.episodes[k].anime_id in s.anime)
    && (forall k :: k in s.watchlist ==> s.watchlist[k].user_id in s.profiles)
    && (forall k :: k in s.watchlist ==> s.watchlist[k].anime_id in s.anime)
    && (forall k :: k in s.progress ==> s.progress[k].user_id in s.profiles)
    && (forall k :: k in s.progress ==> s.progress[k].episode_id in s.episodes)
    && (forall k :: k in s.progress ==> s.progress[k].anime_id in s.anime)
    && (forall k :: k in s.reviews ==> s.reviews[k].user_id in s.profiles)
    && (forall k :: k in s.reviews ==> s.reviews[k].anime_id in s.anime)
  }

  ghost predicate Valid(s: Store) {
    KeysMatch(s) && ReferencesResolve(s)
  }

  // ---------------------------------------------------------------------------
  // Inserts: build the row, then the primary key, then the foreign keys

  function InsertAnime(s: Store, p: NewAnime, generated: Uuid, now: Timestamp): (r: Result<Store, DbError>)
    ensures r.Ok? <==> BuildAnime(p, generated, now).Ok? && BuildAnime(p, generated, now).value.id !in s.anime
    ensures BuildAnime(p, generated, now).Err? ==> r == Err(BuildAnime(p, generated, now).error)
    ensures r.Ok? ==>
      var a := BuildAnime(p, generated, now).value;
      r.value == s.(anime := s.anime[a.id := a])
  {
    var a :- BuildAnime(p, generated, now);
    if a.id in s.anime then Err(DuplicateKey("anime"))
    else Ok(s.(anime := s.anime[a.id := a]))
  }

  function InsertEpisode(s: Store, p: NewEpisode, generated: Uuid, now: Timestamp): (r: Result<Store, DbError>)
    ensures r.Ok? <==>
      && BuildEpisode(p, generated, now).Ok?
      && BuildEpisode(p, generated, now).value.id !in s.episodes
      && BuildEpisode(p, generated, now).value.anime_id in s.anime
    ensures BuildEpisode(p, generated, now).Ok? && BuildEpisode(p, generated, now).value.id !in s.episodes
            && BuildEpisode(p, generated, now).value.anime_id !in s.anime
            ==> r == Err(ForeignKeyViolation("episodes.anime_id"))
    ensures r.Ok? ==>
      var e := BuildEpisode(p, generated, now).value;
      r.value == s.(episodes := s.episodes[e.id := e])
  {
    var e :- BuildEpisode(p, generated, now);
    if e.id in s.episodes then Err(DuplicateKey("episodes"))
    else if e.anime_id !in s.anime then Err(ForeignKeyViolation("episodes.anime_id"))
    else Ok(s.(episodes := s.episodes[e.id := e]))
  }

  function InsertProfile(s: Store, p: NewProfile, generated: Uuid, now: Timestamp): (r: Result<Store, DbError>)
    ensures r.Ok? <==> BuildProfile(p, generated, now).Ok? && BuildProfile(p, generated, now).value.id !in s.profiles
    ensures r.Ok? ==>
      var u := BuildProfile(p, generated, now).value;
      r.value == s.(profiles := s.profiles[u.id := u])
  {
    var u :- BuildProfile(p, generated, now);
    if u.id in s.profiles then Err(DuplicateKey("profiles"))
    else Ok(s.(profiles := s.profiles[u.id := u]))
  }

  function InsertWatchlistEntry(s: Store, p: NewWatchlistEntry, generated: Uuid, now: Timestamp): (r: Result<Store, DbError>)
    ensures r.Ok? <==>
      && BuildWatchlistEntry(p, generated, now).Ok?
      && BuildWatchlistEntry(p, generated, now).value.id !in s.watchlist
      && BuildWatchlistEntry(p, generated, now).value.user_id in s.profiles
      && BuildWatchlistEntry(p, generated, now).value.anime_id in s.anime
    ensures r.Ok? ==>
      var w := BuildWatchlistEntry(p, generated, now).value;
      r.value == s.(watchlist := s.watchlist[w.id := w])
  {
    var w :- BuildWatchlistEntry(p, generated, now);
    if w.id in s.watchlist then Err(DuplicateKey("watchlist"))
    else if w.user_id !in s.profiles then Err(ForeignKeyViolation("watchlist.user_id"))
    else if w.anime_id !in s.anime then Err(ForeignKeyViolation("watchlist.anime_id"))
    else Ok(s.(watchlist := s.watchlist[w.id := w]))
  }

  function InsertWatchProgress(s: Store, p: NewWatchProgress, generated: Uuid, now: Timestamp): (r: Result<Store, DbError>)
    ensures r.Ok? <==>
      && BuildWatchProgress(p, generated, now).Ok?
      && BuildWatchProgress(p, generated, now).value.id !in s.progress
      && BuildWatchProgress(p, generated, now).value.user_id in s.profiles
      && BuildWatchProgress(p, generated, now).value.episode_id in s.episodes
      && BuildWatchProgress(p, generated, now).value.anime_id in s.anime
    ensures r.Ok? ==>
      var w := BuildWatchProgress(p, generated, now).value;
      r.value == s.(progress := s.progress[w.id := w])
  {
    var w :- BuildWatchProgress(p, generated, now);
    if w.id in s.progress then Err(DuplicateKey("watch_progress"))
    else if w.user_id !in s.profiles then Err(ForeignKeyViolation("watch_progress.user_id"))
    else if w.episode_id !in s.episodes then Err(ForeignKeyViolation("watch_progress.episode_id"))
    else if w.anime_id !in s.anime then Err(ForeignKeyViolation("watch_progress.anime_id"))
    else Ok(s.(progress := s.progress[w.id := w]))
  }

  function InsertReview(s: Store, p: NewReview, generated: Uuid, now: Timestamp): (r: Result<Store, DbError>)
    ensures r.Ok? <==>
      && BuildReview(p, generated, now).Ok?
      && BuildReview(p, generated, now).value.id !in s.reviews
      && BuildReview(p, generated, now).value.user_id in s.profiles
      && BuildReview(p, generated, now).value.anime_id in s.anime
    ensures r.Ok? ==>
      var v := BuildReview(p, generated, now).value;
      r.value == s.(reviews := s.reviews[v.id := v])
  {
    var v :- BuildReview(p, generated, now);
    if v.id in s.reviews then Err(DuplicateKey("reviews"))
    else if v.user_id !in s.profiles then Err(ForeignKeyViolation("reviews.user_id"))
    else if v.anime_id !in s.anime then Err(ForeignKeyViolation("reviews.anime_id"))
    else Ok(s.(reviews := s.reviews[v.id := v]))
  }

  // ---------------------------------------------------------------------------
  // Deletes with ON DELETE CASCADE

  /** The rows of `m` that `keep` accepts: what a delete leaves of one table. */
  function Keep<V>(m: map<Uuid, V>, keep: V -> bool): (r: map<Uuid, V>)
    ensures forall k :: k in r <==> k in m && keep(m[k])
    ensures forall k :: k in r ==> r[k] == m[k]
  {
    map k | k in m && keep(m[k]) :: m[k]
  }

  predicate EpisodeOfAnime(s: Store, episode: Uuid, a: Uuid) {
    episode in s.episodes && s.episodes[episode].anime_id == a
  }

  /**
   * Deleting an anime deletes its episodes (and, through them, their
   * progress rows) and every watchlist, progress and review row naming it.
   */
  function DeleteAnime(s: Store, a: Uuid): Store {
    Store(
      s.anime - {a},
      Keep(s.episodes, (e: Episode) => e.anime_id != a),
      s.profiles,
      Keep(s.watchlist, (w: WatchlistEntry) => w.anime_id != a),
      Keep(s.progress, (w: WatchProgress) => w.anime_id != a && !EpisodeOfAnime(s, w.episode_id, a)),
      Keep(s.reviews, (v: Review) => v.anime_id != a))
  }

  /** Deleting an episode deletes the progress rows naming it. */
  function DeleteEpisode(s: Store, e: Uuid): Store {
    s.(episodes := s.episodes - {e},
       progress := Keep(s.progress, (w: WatchProgress) => w.episode_id != e))
  }

  /** Deleting a profile deletes the user's watchlist, progress and review rows. */
  function DeleteProfile(s: Store, u: Uuid): Store {
    s.(profiles := s.profiles - {u},
       watchlist := Keep(s.watchlist, (w: WatchlistEntry) => w.user_id != u),
       progress := Keep(s.progress, (w: WatchProgress) => w.user_id != u),
       reviews := Keep(s.reviews, (v: Review) => v.user_id != u))
  }

  /** No table references watchlist, progress or review rows: they go alone. */
  function DeleteWatchlistEntry(s: Store, id: Uuid): Store {
    s.(watchlist := s.watchlist - {id})
  }

  function DeleteWatchProgress(s: Store, id: Uuid): Store {
    s.(progress := s.progress - {id})
  }

  function DeleteReview(s: Store, id: Uuid): Store {
    s.(reviews := s.reviews - {id})
  }

  // ---------------------------------------------------------------------------
  // Rows as references, for stating the cascade rule once for all tables

  datatype RowRef =
    | AnimeRow(id: Uuid)
    | EpisodeRow(id: Uuid)
    | ProfileRow(id: Uuid)
    | WatchlistRow(id: Uuid)
    | ProgressRow(id: Uuid)
    | ReviewRow(id: Uuid)

  predicate Present(s: Store, r: RowRef) {
    match r
    case AnimeRow(k) => k in s.anime
    case EpisodeRow(k) => k in s.episodes
    case ProfileRow(k) => k in s.profiles
    case WatchlistRow(k) => k in s.watchlist
    case ProgressRow(k) => k in s.progress
    case ReviewRow(k) => k in s.reviews
  }

  /** The rows that the foreign keys of stored row `r` name. */
  function Parents(s: Store, r: RowRef): set<RowRef> {
    match r
    case AnimeRow(_) => {}
    case ProfileRow(_) => {}
    case EpisodeRow(k) =>
      if k in s.episodes then {AnimeRow(s.episodes[k].anime_id)} else {}
    case WatchlistRow(k) =>
      if k in s.watchlist then {ProfileRow(s.watchlist[k].user_id), AnimeRow(s.watchlist[k].anime_id)} else {}
    case ProgressRow(k) =>
      if k in s.progress
      then {ProfileRow(s.progress[k].user_id), EpisodeRow(s.progress[k].episode_id), AnimeRow(s.progress[k].anime_id)}
      else {}
    case ReviewRow(k) =>
      if k in s.reviews then {ProfileRow(s.reviews[k].user_id), AnimeRow(s.reviews[k].anime_id)} else {}
  }

  /** Delete the row `t` names, with its cascade. */
  function Delete(s: Store, t: RowRef): Store {
    match t
    case AnimeRow(k) => DeleteAnime(s, k)
    case EpisodeRow(k) => DeleteEpisode(s, k)
    case ProfileRow(k) => DeleteProfile(s, k)
    case WatchlistRow(k) => DeleteWatchlistEntry(s, k)
    case ProgressRow(k) => DeleteWatchProgress(s, k)
    case ReviewRow(k) => DeleteReview(s, k)
  }

  /**
   * The reference meaning of ON DELETE CASCADE: deleting `t` removes `r`
   * when `r` is `t`, or `r` is a stored row one of whose parents is removed,
   * following at most `depth` foreign keys.
   */
  ghost predicate Doomed(s: Store, t: RowRef, r: RowRef, depth: nat)
    decreases depth
  {
    r == t || (depth > 0 && Present(s, r) && exists q :: q in Parents(s, r) && Doomed(s, t, q, depth - 1))
  }

  /** `s2` holds a subset of the rows of `s1`, each unchanged. */
  ghost predicate SubStore(s2: Store, s1: Store) {
    && (forall k :: k in s2.anime ==> k in s1.anime && s2.anime[k] == s1.anime[k])
    && (forall k :: k in s2.episodes ==> k in s1.episodes && s2.episodes[k] == s1.episodes[k])
    && (forall k :: k in s2.profiles ==> k in s1.profiles && s2.profiles[k] == s1.profiles[k])
    && (forall k :: k in s2.watchlist ==> k in s1.watchlist && s2.watchlist[k] == s1.watchlist[k])
    && (forall k :: k in s2.progress ==> k in s1.progress && s2.progress[k] == s1.progress[k])
    && (forall k :: k in s2.reviews ==> k in s1.reviews && s2.reviews[k] == s1.reviews[k])
  }
}
