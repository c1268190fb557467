/**
 * What the schema's declarations promise about the store: inserts and
 * deletes keep every foreign key resolved, a delete removes exactly the
 * rows that reach the deleted row through foreign keys, and every other
 * row stays as it was.
 */
module Integrity {
  import opened Results
  import opened Schema

  // ---------------------------------------------------------------------------
  // The invariant, read once over all tables

  /** Every parent of a stored row is stored. */
  ghost predicate ParentsPresent(s: Store) {
    forall r, q :: Present(s, r) && q in Parents(s, r) ==> Present(s, q)
  }

  /** `ReferencesResolve` is the table-by-table form of "every parent of a stored row is stored". */
  lemma ReferencesResolveAsParents(s: Store)
    ensures ReferencesResolve(s) <==> ParentsPresent(s)
  {
    if ReferencesResolve(s) {
      forall r, q | Present(s, r) && q in Parents(s, r) ensures Present(s, q) {
        match r
        case EpisodeRow(k) =>
        case WatchlistRow(k) =>
        case ProgressRow(k) =>
        case ReviewRow(k) =>
      }
    }
    if ParentsPresent(s) {
      forall k | k in s.episodes ensures s.episodes[k].anime_id in s.anime {
        ParentPresent(s, EpisodeRow(k), AnimeRow(s.episodes[k].anime_id));
      }
      forall k | k in s.watchlist
        ensures s.watchlist[k].user_id in s.profiles && s.watchlist[k].anime_id in s.anime
      {
        ParentPresent(s, WatchlistRow(k), ProfileRow(s.watchlist[k].user_id));
        ParentPresent(s, WatchlistRow(k), AnimeRow(s.watchlist[k].anime_id));
      }
      forall k | k in s.progress
        ensures s.progress[k].user_id in s.profiles && s.progress[k].episode_id in s.episodes
        ensures s.progress[k].anime_id in s.anime
      {
        ParentPresent(s, ProgressRow(k), ProfileRow(s.progress[k].user_id));
        ParentPresent(s, ProgressRow(k), EpisodeRow(s.progress[k].episode_id));
        ParentPresent(s, ProgressRow(k), AnimeRow(s.progress[k].anime_id));
      }
      forall k | k in s.reviews
        ensures s.reviews[k].user_id in s.profiles && s.reviews[k].anime_id in s.anime
      {
        ParentPresent(s, ReviewRow(k), ProfileRow(s.reviews[k].user_id));
        ParentPresent(s, ReviewRow(k), AnimeRow(s.reviews[k].anime_id));
      }
    }
  }

  lemma ParentPresent(s: Store, r: RowRef, q: RowRef)
    requires ParentsPresent(s) && Present(s, r) && q in Parents(s, r)
    ensures Present(s, q)
  {
  }

  lemma EmptyStoreValid()
    ensures Valid(EmptyStore)
  {
  }

  // ---------------------------------------------------------------------------
  // Inserts keep the invariant

  /** Storing a row under its own id, when the rows it references are stored, keeps the store valid. */
  lemma PutAnimeKeepsValid(s: Store, a: Anime)
    requires Valid(s)
    ensures Valid(s.(anime := s.anime[a.id := a]))
  {
  }

  lemma PutEpisodeKeepsValid(s: Store, e: Episode)
    requires Valid(s) && e.anime_id in s.anime
    ensures Valid(s.(episodes := s.episodes[e.id := e]))
  {
  }

  lemma PutProfileKeepsValid(s: Store, u: Profile)
    requires Valid(s)
    ensures Valid(s.(profiles := s.profiles[u.id := u]))
  {
  }

  lemma PutWatchlistEntryKeepsValid(s: Store, w: WatchlistEntry)
    requires Valid(s) && w.user_id in s.profiles && w.anime_id in s.anime
    ensures Valid(s.(watchlist := s.watchlist[w.id := w]))
  {
  }

  lemma PutWatchProgressKeepsValid(s: Store, w: WatchProgress)
    requires Valid(s) && w.user_id in s.profiles && w.episode_id in s.episodes && w.anime_id in s.anime
    ensures Valid(s.(progress := s.progress[w.id := w]))
  {
  }

  lemma PutReviewKeepsValid(s: Store, v: Review)
    requires Valid(s) && v.user_id in s.profiles && v.anime_id in s.anime
    ensures Valid(s.(reviews := s.reviews[v.id := v]))
  {
  }

  lemma InsertAnimeKeepsValid(s: Store, p: NewAnime, generated: Uuid, now: Timestamp)
    requires Valid(s)
    ensures InsertAnime(s, p, generated, now).Ok? ==> Valid(InsertAnime(s, p, generated, now).value)
  {
    if InsertAnime(s, p, generated, now).Ok? {
      PutAnimeKeepsValid(s, BuildAnime(p, generated, now).value);
    }
  }

  lemma InsertEpisodeKeepsValid(s: Store, p: NewEpisode, generated: Uuid, now: Timestamp)
    requires Valid(s)
    ensures InsertEpisode(s, p, generated, now).Ok? ==> Valid(InsertEpisode(s, p, generated, now).value)
  {
    if InsertEpisode(s, p, generated, now).Ok? {
      PutEpisodeKeepsValid(s, BuildEpisode(p, generated, now).value);
    }
  }

  lemma InsertProfileKeepsValid(s: Store, p: NewProfile, generated: Uuid, now: Timestamp)
    requires Valid(s)
    ensures InsertProfile(s, p, generated, now).Ok? ==> Valid(InsertProfile(s, p, generated, now).value)
  {
    if InsertProfile(s, p, generated, now).Ok? {
      PutProfileKeepsValid(s, BuildProfile(p, generated, now).value);
    }
  }

  lemma InsertWatchlistEntryKeepsValid(s: Store, p: NewWatchlistEntry, generated: Uuid, now: Timestamp)
    requires Valid(s)
    ensures InsertWatchlistEntry(s, p, generated, now).Ok? ==> Valid(InsertWatchlistEntry(s, p, generated, now).value)
  {
    if InsertWatchlistEntry(s, p, generated, now).Ok? {
      PutWatchlistEntryKeepsValid(s, BuildWatchlistEntry(p, generated, now).value);
    }
  }

  lemma InsertWatchProgressKeepsValid(s: Store, p: NewWatchProgress, generated: Uuid, now: Timestamp)
    requires Valid(s)
    ensures InsertWatchProgress(s, p, generated, now).Ok? ==> Valid(InsertWatchProgress(s, p, generated, now).value)
  {
    if InsertWatchProgress(s, p, generated, now).Ok? {
      PutWatchProgressKeepsValid(s, BuildWatchProgress(p, generated, now).value);
    }
  }

  lemma InsertReviewKeepsValid(s: Store, p: NewReview, generated: Uuid, now: Timestamp)
    requires Valid(s)
    ensures InsertReview(s, p, generated, now).Ok? ==> Valid(InsertReview(s, p, generated, now).value)
  {
    if InsertReview(s, p, generated, now).Ok? {
      PutReviewKeepsValid(s, BuildReview(p, generated, now).value);
    }
  }

  // ---------------------------------------------------------------------------
  // The cascade rule

  /** One foreign key away: `q` is removed with `t` when it is `t` or one of its parents is `t`. */
  lemma DoomedAtOne(s: Store, t: RowRef, q: RowRef)
    ensures Doomed(s, t, q, 1) <==> q == t || (Present(s, q) && t in Parents(s, q))
  {
    assert forall q' :: Doomed(s, t, q', 0) <==> q' == t;
  }

  /** Only episodes have a parent that itself has parents; anime and profiles have none. */
  lemma ParentsAreRoots(s: Store, r: RowRef, q: RowRef, q2: RowRef)
    requires q in Parents(s, r) && q2 in Parents(s, q)
    ensures r.ProgressRow? && q.EpisodeRow? && q2.AnimeRow?
  {
  }

  /** A parent removed through any chain is removed through one of length at most one. */
  lemma {:induction false} ParentDoomedAtOne(s: Store, t: RowRef, r: RowRef, q: RowRef, depth: nat)
    requires q in Parents(s, r) && Doomed(s, t, q, depth)
    ensures Doomed(s, t, q, 1)
  {
    DoomedAtOne(s, t, q);
    if q != t {
      assert depth > 0;
      var q2 :| q2 in Parents(s, q) && Doomed(s, t, q2, depth - 1);
      ParentsAreRoots(s, r, q, q2);
      assert q2 == t;
    }
  }

  /**
   * Chains of foreign keys are at most two long (watch_progress -> episodes -> anime),
   * so `Doomed(s, t, r, 2)` is the whole transitive closure: deeper search finds nothing more.
   */
  lemma {:induction false} CascadeDepthTwo(s: Store, t: RowRef, r: RowRef, depth: nat)
    ensures Doomed(s, t, r, depth) ==> Doomed(s, t, r, 2)
  {
    if Doomed(s, t, r, depth) && r != t {
      var q :| q in Parents(s, r) && Doomed(s, t, q, depth - 1);
      ParentDoomedAtOne(s, t, r, q, depth - 1);
    }
  }

  /** `r` is a progress row whose episode is stored and has `t` as its parent. */
  ghost predicate ThroughEpisode(s: Store, t: RowRef, r: RowRef) {
    && r.ProgressRow? && r.id in s.progress
    && Present(s, EpisodeRow(s.progress[r.id].episode_id))
    && t in Parents(s, EpisodeRow(s.progress[r.id].episode_id))
  }

  lemma DoomedAtTwoIf(s: Store, t: RowRef, r: RowRef)
    requires r == t || (Present(s, r) && t in Parents(s, r)) || ThroughEpisode(s, t, r)
    ensures Doomed(s, t, r, 2)
  {
    if r != t && Present(s, r) && t in Parents(s, r) {
      assert Doomed(s, t, t, 1);
    } else if r != t {
      var e := EpisodeRow(s.progress[r.id].episode_id);
      assert e in Parents(s, r);
      DoomedAtOne(s, t, e);
    }
  }

  lemma DoomedAtTwoOnlyIf(s: Store, t: RowRef, r: RowRef)
    requires Doomed(s, t, r, 2)
    ensures r == t || (Present(s, r) && t in Parents(s, r)) || ThroughEpisode(s, t, r)
  {
    if r != t {
      var q :| q in Parents(s, r) && Doomed(s, t, q, 1);
      DoomedAtOne(s, t, q);
      if q != t {
        ParentsAreRoots(s, r, q, t);
      }
    }
  }

  /** The rows a delete removes: the target, its direct children, and progress rows of its episodes. */
  lemma DoomedAtTwo(s: Store, t: RowRef, r: RowRef)
    ensures Doomed(s, t, r, 2) <==>
      r == t || (Present(s, r) && t in Parents(s, r)) || ThroughEpisode(s, t, r)
  {
    if Doomed(s, t, r, 2) {
      DoomedAtTwoOnlyIf(s, t, r);
    }
    if r == t || (Present(s, r) && t in Parents(s, r)) || ThroughEpisode(s, t, r) {
      DoomedAtTwoIf(s, t, r);
    }
  }

  lemma DeleteAnimeIsCascade(s: Store, a: Uuid, r: RowRef)
    ensures Present(Delete(s, AnimeRow(a)), r) <==> Present(s, r) && !Doomed(s, AnimeRow(a), r, 2)
  {
    DoomedAtTwo(s, AnimeRow(a), r);
    match r
    case AnimeRow(k) =>
    case EpisodeRow(k) =>
      if k in s.episodes {
        assert Parents(s, r) == {AnimeRow(s.episodes[k].anime_id)};
      }
    case ProfileRow(k) =>
    case WatchlistRow(k) =>
      if k in s.watchlist {
        var w := s.watchlist[k];
        assert Parents(s, r) == {ProfileRow(w.user_id), AnimeRow(w.anime_id)};
      }
    case ProgressRow(k) =>
      if k in s.progress {
        var w := s.progress[k];
        assert Parents(s, r) == {ProfileRow(w.user_id), EpisodeRow(w.episode_id), AnimeRow(w.anime_id)};
        if EpisodeOfAnime(s, w.episode_id, a) {
          assert AnimeRow(a) in Parents(s, EpisodeRow(w.episode_id));
        }
      }
    case ReviewRow(k) =>
      if k in s.reviews {
        var v := s.reviews[k];
        assert Parents(s, r) == {ProfileRow(v.user_id), AnimeRow(v.anime_id)};
      }
  }

  lemma DeleteEpisodeIsCascade(s: Store, e: Uuid, r: RowRef)
    ensures Present(Delete(s, EpisodeRow(e)), r) <==> Present(s, r) && !Doomed(s, EpisodeRow(e), r, 2)
  {
    DoomedAtTwo(s, EpisodeRow(e), r);
    match r
    case AnimeRow(k) =>
    case EpisodeRow(k) =>
      if k in s.episodes {
        assert Parents(s, r) == {AnimeRow(s.episodes[k].anime_id)};
      }
    case ProfileRow(k) =>
    case WatchlistRow(k) =>
      if k in s.watchlist {
        var w := s.watchlist[k];
        assert Parents(s, r) == {ProfileRow(w.user_id), AnimeRow(w.anime_id)};
      }
    case ProgressRow(k) =>
      if k in s.progress {
        var w := s.progress[k];
        assert Parents(s, r) == {ProfileRow(w.user_id), EpisodeRow(w.episode_id), AnimeRow(w.anime_id)};
      }
    case ReviewRow(k) =>
      if k in s.reviews {
        var v := s.reviews[k];
        assert Parents(s, r) == {ProfileRow(v.user_id), AnimeRow(v.anime_id)};
      }
  }

  lemma DeleteProfileIsCascade(s: Store, u: Uuid, r: RowRef)
    ensures Present(Delete(s, ProfileRow(u)), r) <==> Present(s, r) && !Doomed(s, ProfileRow(u), r, 2)
  {
    DoomedAtTwo(s, ProfileRow(u), r);
    match r
    case AnimeRow(k) =>
    case EpisodeRow(k) =>
      if k in s.episodes {
        assert Parents(s, r) == {AnimeRow(s.episodes[k].anime_id)};
      }
    case ProfileRow(k) =>
    case WatchlistRow(k) =>
      if k in s.watchlist {
        var w := s.watchlist[k];
        assert Parents(s, r) == {ProfileRow(w.user_id), AnimeRow(w.anime_id)};
      }
    case ProgressRow(k) =>
      if k in s.progress {
        var w := s.progress[k];
        assert Parents(s, r) == {ProfileRow(w.user_id), EpisodeRow(w.episode_id), AnimeRow(w.anime_id)};
      }
    case ReviewRow(k) =>
      if k in s.reviews {
        var v := s.reviews[k];
        assert Parents(s, r) == {ProfileRow(v.user_id), AnimeRow(v.anime_id)};
      }
  }

  /** Watchlist, progress and review rows have no children: deleting one removes only it. */
  lemma DeleteLeafIsCascade(s: Store, t: RowRef, r: RowRef)
    requires t.WatchlistRow? || t.ProgressRow? || t.ReviewRow?
    ensures Present(Delete(s, t), r) <==> Present(s, r) && !Doomed(s, t, r, 2)
  {
    DoomedAtTwo(s, t, r);
    forall q | Present(s, q) ensures t !in Parents(s, q) {
    }
  }

  /**
   * ON DELETE CASCADE, for every kind of row: after deleting `t`, a row
   * remains exactly when it was stored and no chain of foreign keys leads
   * from it to `t` (of any length: see CascadeDepthTwo).
   */
  lemma DeleteIsCascade(s: Store, t: RowRef, r: RowRef)
    ensures Present(Delete(s, t), r) <==> Present(s, r) && !Doomed(s, t, r, 2)
  {
    match t
    case AnimeRow(a) => DeleteAnimeIsCascade(s, a, r);
    case EpisodeRow(e) => DeleteEpisodeIsCascade(s, e, r);
    case ProfileRow(u) => DeleteProfileIsCascade(s, u, r);
    case WatchlistRow(_) => DeleteLeafIsCascade(s, t, r);
    case ProgressRow(_) => DeleteLeafIsCascade(s, t, r);
    case ReviewRow(_) => DeleteLeafIsCascade(s, t, r);
  }

  /** A delete changes no surviving row. */
  lemma DeleteKeepsSurvivors(s: Store, t: RowRef)
    ensures SubStore(Delete(s, t), s)
  {
  }

  /** A row's foreign keys are its own: they do not change when other rows go. */
  lemma ParentsOfSurvivor(s: Store, s': Store, r: RowRef)
    requires SubStore(s', s) && Present(s', r)
    ensures Parents(s', r) == Parents(s, r)
  {
  }

  /** Parents of a surviving row survive too: a delete leaves no dangling reference. */
  lemma DeleteKeepsValid(s: Store, t: RowRef)
    requires Valid(s)
    ensures Valid(Delete(s, t))
  {
    var s' := Delete(s, t);
    DeleteKeepsSurvivors(s, t);
    ReferencesResolveAsParents(s);
    forall r, q | Present(s', r) && q in Parents(s', r) ensures Present(s', q) {
      ParentsOfSurvivor(s, s', r);
      DeleteIsCascade(s, t, r);
      ParentPresent(s, r, q);
      DeleteIsCascade(s, t, q);
      if Doomed(s, t, q, 2) {
        ParentDoomedAtOne(s, t, r, q, 2);
      }
    }
    ReferencesResolveAsParents(s');
  }

  // ---------------------------------------------------------------------------
  // The cascades table by table

  /** After deleting an anime no episode names it, and episodes of other anime are untouched. */
  lemma DeleteAnimeEpisodes(s: Store, a: Uuid)
    ensures var s' := DeleteAnime(s, a);
      && (forall e :: e in s'.episodes ==> s'.episodes[e].anime_id != a)
      && (forall e :: e in s.episodes && s.episodes[e].anime_id != a ==> e in s'.episodes && s'.episodes[e] == s.episodes[e])
  {
  }

  /**
   * After deleting an anime nothing refers to it any more: not its episodes,
   * not watchlist, progress or review rows, and no progress row is left on
   * one of its deleted episodes. Profiles are untouched.
   */
  lemma DeleteAnimeLeavesNoReference(s: Store, a: Uuid)
    requires Valid(s)
    ensures var s' := DeleteAnime(s, a);
      && Valid(s')
      && a !in s'.anime
      && s'.profiles == s.profiles
      && (forall w :: w in s'.watchlist ==> s'.watchlist[w].anime_id != a)
      && (forall w :: w in s'.reviews ==> s'.reviews[w].anime_id != a)
      && (forall w :: w in s'.progress ==>
            && s'.progress[w].anime_id != a
            && s'.progress[w].episode_id in s'.episodes
            && s'.episodes[s'.progress[w].episode_id].anime_id != a)
  {
    DeleteKeepsValid(s, AnimeRow(a));
  }

  /** Deleting a profile removes exactly its watchlist, progress and review rows. */
  lemma DeleteProfileExact(s: Store, u: Uuid)
    ensures var s' := DeleteProfile(s, u);
      && s'.anime == s.anime && s'.episodes == s.episodes
      && s'.profiles == s.profiles - {u}
      && (forall w :: w in s'.watchlist <==> w in s.watchlist && s.watchlist[w].user_id != u)
      && (forall w :: w in s'.progress <==> w in s.progress && s.progress[w].user_id != u)
      && (forall w :: w in s'.reviews <==> w in s.reviews && s.reviews[w].user_id != u)
      && SubStore(s', s)
  {
  }

  /** Deleting an episode removes exactly the progress rows naming it. */
  lemma DeleteEpisodeExact(s: Store, e: Uuid)
    ensures var s' := DeleteEpisode(s, e);
      && s'.anime == s.anime && s'.profiles == s.profiles
      && s'.watchlist == s.watchlist && s'.reviews == s.reviews
      && s'.episodes == s.episodes - {e}
      && (forall w :: w in s'.progress <==> w in s.progress && s.progress[w].episode_id != e)
      && SubStore(s', s)
  {
  }

  /** Deleting an anime twice is deleting it once. */
  lemma DeleteAnimeIdempotent(s: Store, a: Uuid)
    ensures DeleteAnime(DeleteAnime(s, a), a) == DeleteAnime(s, a)
  {
    var s' := DeleteAnime(s, a);
    var s'' := DeleteAnime(s', a);
    assert s''.episodes == s'.episodes;
    assert s''.watchlist == s'.watchlist;
    assert s''.progress == s'.progress;
    assert s''.reviews == s'.reviews;
  }

  lemma DeleteProfileIdempotent(s: Store, u: Uuid)
    ensures DeleteProfile(DeleteProfile(s, u), u) == DeleteProfile(s, u)
  {
    var s' := DeleteProfile(s, u);
    var s'' := DeleteProfile(s', u);
    assert s''.watchlist == s'.watchlist;
    assert s''.progress == s'.progress;
    assert s''.reviews == s'.reviews;
  }

  /** Repeating a delete changes nothing more: a retried delete is harmless. */
  lemma DeleteIdempotent(s: Store, t: RowRef)
    ensures Delete(Delete(s, t), t) == Delete(s, t)
  {
    match t
    case AnimeRow(a) => DeleteAnimeIdempotent(s, a);
    case EpisodeRow(e) =>
      assert DeleteEpisode(DeleteEpisode(s, e), e).progress == DeleteEpisode(s, e).progress;
    case ProfileRow(u) => DeleteProfileIdempotent(s, u);
    case WatchlistRow(_) =>
    case ProgressRow(_) =>
    case ReviewRow(_) =>
  }

  /** Enum values read back as themselves, so stored enum columns hold only the declared labels. */
  lemma EnumLabelsRoundTrip(st: Status, c: ContentType, r: Role)
    ensures ParseStatus(StatusLabel(st)) == Some(st)
    ensures ParseContentType(ContentTypeLabel(c)) == Some(c)
    ensures ParseRole(RoleLabel(r)) == Some(r)
  {
  }
}
