/**
  Gig navigation (http.go): the "next" and "previous" handlers move a
  two-level (set, track) cursor over the gig's sets, across set and show
  boundaries, persist the new cursor, and render either the current track
  or a boundary page.

  `Next` and `Prev` are the index arithmetic and the persistence decision of
  one request, lifted out of the handlers: the page the request renders and
  the gig it writes back, if any.  The handler methods below run them
  against the session store.
*/
module GigNav {
  import opened Wrappers
  import opened Entity
  import opened GigDb

  /** What a request renders; the templates themselves are not modelled. */
  datatype Page =
    | TrackPage(gigId: int, gigName: string, setName: string, track: Track, keyTone: string)  // the current track
    | SetBoundary(gigId: int, gigName: string, setName: string, status: string)               // end or beginning of a set
    | ShowBoundary(gigId: int, gigName: string, status: string)                               // end or beginning of the show
    | ErrorText(origin: string)                                                               // an error written as plain text
    | Redirect(url: string)
    | Crash                                                                                   // a slice index out of range

  /** The outcome of one navigation request: the page, and the gig written back (None: nothing written). */
  datatype Step = Step(page: Page, stored: Option<Gig>)

  /**
    The cursor invariant: the set index is in range and the track index lies
    between the -1 marker and the track count of the current set.
  */
  predicate Positioned(g: Gig)
  {
    0 <= g.curSet < |g.sets| && -1 <= g.curTrack <= |g.sets[g.curSet].tracks|
  }

  /** The cursor points at an actual track. */
  predicate OnTrack(g: Gig)
  {
    0 <= g.curSet < |g.sets| && 0 <= g.curTrack < |g.sets[g.curSet].tracks|
  }

  /** A gig written back differs from the one read only in its cursor. */
  predicate SameShow(g: Gig, h: Gig)
  {
    h.id == g.id && h.name == g.name && h.sets == g.sets
  }

  /** The page for the track under the cursor. */
  function TrackAt(g: Gig): Page
    requires OnTrack(g)
  {
    var t := g.sets[g.curSet].tracks[g.curTrack];
    TrackPage(g.id, g.name, g.sets[g.curSet].name, t, t.keyTone)
  }

  /**
    One "next" request on the stored gig `g`.  Past the last track of a set
    it reports the end of that set and stores the next set with the -1
    marker, so that the following request lands on its track 0; past the
    last set it reports the end of the show and stores nothing.
  */
  function Next(g: Gig): (r: Step)
    ensures r.stored.Some? ==> SameShow(g, r.stored.value)
    ensures r.stored.Some? ==>
      (r.stored.value.curSet == g.curSet && r.stored.value.curTrack == g.curTrack + 1) ||
      (r.stored.value.curSet == g.curSet + 1 && r.stored.value.curTrack == -1)
    ensures r.page.TrackPage? ==> r.stored.Some? && OnTrack(r.stored.value) && r.page == TrackAt(r.stored.value)
    ensures Positioned(g) ==> r.page != Crash
    ensures Positioned(g) && r.stored.Some? ==> Positioned(r.stored.value)
  {
    var t := g.curTrack + 1;
    if !(0 <= g.curSet < |g.sets|) then Step(Crash, None)
    else if t >= |g.sets[g.curSet].tracks| then
      if g.curSet + 1 >= |g.sets| then Step(ShowBoundary(g.id, g.name, "End"), None)
      else Step(SetBoundary(g.id, g.name, g.sets[g.curSet].name, "End"), Some(g.(curSet := g.curSet + 1, curTrack := -1)))
    else
      var h := g.(curTrack := t);
      Step(if t < 0 then Crash else TrackAt(h), Some(h))
  }

  /**
    One "previous" request on the stored gig `g`.  Below track 0 of a set it
    reports the beginning of that set and stores the previous set with its
    track count as marker, so that the following request lands on its last
    track; below the first set it reports the beginning of the show and
    stores nothing.
  */
  function Prev(g: Gig): (r: Step)
    ensures r.stored.Some? ==> SameShow(g, r.stored.value)
    ensures r.stored.Some? ==>
      (r.stored.value.curSet == g.curSet && r.stored.value.curTrack == g.curTrack - 1) ||
      (r.stored.value.curSet == g.curSet - 1 && 0 <= g.curSet - 1 < |g.sets| &&
       r.stored.value.curTrack == |g.sets[g.curSet - 1].tracks|)
    ensures r.page.TrackPage? ==> r.stored.Some? && OnTrack(r.stored.value) && r.page == TrackAt(r.stored.value)
    ensures Positioned(g) ==> r.page != Crash
    ensures Positioned(g) && r.stored.Some? ==> Positioned(r.stored.value)
  {
    if !(0 <= g.curSet < |g.sets|) then Step(Crash, None)
    else
      var t := g.curTrack - 1;
      if t < 0 then
        if g.curSet - 1 < 0 then Step(ShowBoundary(g.id, g.name, "Beginning"), None)
        else
          var s := g.curSet - 1;
          Step(SetBoundary(g.id, g.name, g.sets[g.curSet].name, "Beginning"),
               Some(g.(curSet := s, curTrack := |g.sets[s].tracks|)))
      else
        var h := g.(curTrack := t);
        Step(if t < |g.sets[g.curSet].tracks| then TrackAt(h) else Crash, Some(h))
  }

  /**
    The page a new gig opens on.  The key tone is read from the track
    indexed by the set cursor rather than the track cursor.
  */
  function OpeningPage(g: Gig): Page
  {
    if !OnTrack(g) then Crash
    else if !(0 <= g.curSet < |g.sets[g.curSet].tracks|) then Crash
    else
      var t := g.sets[g.curSet].tracks[g.curTrack];
      TrackPage(g.id, g.name, g.sets[g.curSet].name, t, g.sets[g.curSet].tracks[g.curSet].keyTone)
  }

  // ---------------------------------------------------------------------
  // The handlers, run against the session store
  // ---------------------------------------------------------------------

  /** The table after a request: the gig written back, if any, replaces the one read. */
  ghost function Stored(table: map<int, Gig>, id: int, st: Step): map<int, Gig>
  {
    if st.stored.Some? then table[id := st.stored.value] else table
  }

  /** Opens a gig on a setlist read from the catalog (None: the lookup failed). */
  method DoGig(db: GigTable, sl: Option<Setlist>) returns (page: Page, ghost started: Option<Gig>)
    requires db.Valid()
    modifies db
    ensures db.Valid()
    ensures started.None? ==> db.rows == old(db.rows) && page.ErrorText?
    ensures sl.None? ==> page == ErrorText("DoGig.2")
    ensures sl.Some? && started.None? ==>
      page == ErrorText("DoGig.3") && exists k :: 0 <= k < IdBound && k in old(db.rows)
    ensures sl.Some? && old(db.rows) == map[] ==> started.Some?
    ensures started.Some? ==>
      && sl.Some?
      && started.value == NewGig(sl.value).(id := started.value.id)
      && db.Gigs() == old(db.Gigs())[started.value.id := started.value]
      && page == OpeningPage(started.value)
  {
    started := None;
    if sl.None? {
      return ErrorText("DoGig.2"), None;
    }
    var r, drawn := db.NewGig(sl.value);
    if r.Failure? {
      return ErrorText("DoGig.3"), None;
    }
    var gig := r.value;
    started := Some(gig);
    if !(0 <= gig.curSet < |gig.sets|) || !(0 <= gig.curTrack < |gig.sets[gig.curSet].tracks|) {
      return Crash, started;
    }
    var setName := gig.sets[gig.curSet].name;
    var track := gig.sets[gig.curSet].tracks[gig.curTrack];
    if !(gig.curSet < |gig.sets[gig.curSet].tracks|) {
      return Crash, started;
    }
    var keyTone := gig.sets[gig.curSet].tracks[gig.curSet].keyTone;
    page := TrackPage(gig.id, gig.name, setName, track, keyTone);
  }

  /** The "next" handler: read the gig, move the cursor field by field, write it back, render. */
  method ShowGigNext(db: GigTable, id: int) returns (page: Page)
    requires db.Valid()
    modifies db
    ensures db.Valid()
    ensures id !in old(db.rows) ==> page == ErrorText("ShowGigNext.2") && db.rows == old(db.rows)
    ensures id in old(db.rows) ==>
      var st := Next(old(db.Gigs())[id]);
      page == st.page && db.Gigs() == Stored(old(db.Gigs()), id, st)
  {
    var r := db.GetGig(id);
    if r.Failure? {
      return ErrorText("ShowGigNext.2");
    }
    var g := r.value;
    ghost var g0 := g;
    g := g.(curTrack := g.curTrack + 1);
    if !(0 <= g.curSet < |g.sets|) {
      return Crash;
    }
    if g.curTrack >= |g.sets[g.curSet].tracks| {
      var setName := g.sets[g.curSet].name;
      g := g.(curTrack := 0);
      g := g.(curSet := g.curSet + 1);
      if g.curSet >= |g.sets| {
        return ShowBoundary(g.id, g.name, "End");
      }
      g := g.(curTrack := -1);
      db.UpdateGig(g);
      return SetBoundary(g.id, g.name, setName, "End");
    }
    db.UpdateGig(g);
    if g.curTrack < 0 {
      return Crash;
    }
    page := TrackAt(g);
  }

  /** The "previous" handler. */
  method ShowGigPrev(db: GigTable, id: int) returns (page: Page)
    requires db.Valid()
    modifies db
    ensures db.Valid()
    ensures id !in old(db.rows) ==> page == ErrorText("ShowGigPrev.2") && db.rows == old(db.rows)
    ensures id in old(db.rows) ==>
      var st := Prev(old(db.Gigs())[id]);
      page == st.page && db.Gigs() == Stored(old(db.Gigs()), id, st)
  {
    var r := db.GetGig(id);
    if r.Failure? {
      return ErrorText("ShowGigPrev.2");
    }
    var g := r.value;
    if !(0 <= g.curSet < |g.sets|) {
      return Crash;
    }
    g := g.(curTrack := g.curTrack - 1);
    if g.curTrack < 0 {
      var setName := g.sets[g.curSet].name;
      g := g.(curSet := g.curSet - 1);
      if g.curSet < 0 {
        g := g.(curSet := 0);
        return ShowBoundary(g.id, g.name, "Beginning");
      }
      g := g.(curTrack := |g.sets[g.curSet].tracks|);
      db.UpdateGig(g);
      return SetBoundary(g.id, g.name, setName, "Beginning");
    }
    db.UpdateGig(g);
    if g.curTrack >= |g.sets[g.curSet].tracks| {
      return Crash;
    }
    page := TrackAt(g);
  }

  /** Ends a gig: its record is removed and the client is sent home, whatever the removal did. */
  method EndGig(db: GigTable, id: int) returns (page: Page)
    requires db.Valid()
    modifies db
    ensures db.Valid()
    ensures page == Redirect("/")
    ensures db.Gigs() == old(db.Gigs()) - {id}
  {
    db.RemoveGig(id);
    page := Redirect("/");
  }
  // ---------------------------------------------------------------------
  // Properties of one request
  // ---------------------------------------------------------------------

  /** Inside a set, "next" shows the following track and stores it as the cursor. */
  lemma NextWithinSet(g: Gig)
    requires Positioned(g) && g.curTrack + 1 < |g.sets[g.curSet].tracks|
    ensures g.curTrack + 1 >= 0
    ensures Next(g) == Step(TrackAt(g.(curTrack := g.curTrack + 1)), Some(g.(curTrack := g.curTrack + 1)))
  {
  }

  /** Past the last track of a set that is not the last, "next" announces its end and parks on the -1 marker of the next set. */
  lemma NextEndOfSet(g: Gig)
    requires Positioned(g) && g.curTrack + 1 >= |g.sets[g.curSet].tracks| && g.curSet + 1 < |g.sets|
    ensures Next(g) == Step(SetBoundary(g.id, g.name, g.sets[g.curSet].name, "End"),
                            Some(g.(curSet := g.curSet + 1, curTrack := -1)))
  {
  }

  /** Past the last track of the last set, "next" announces the end of the show, stores nothing, and so says the same again. */
  lemma NextEndOfShow(g: Gig)
    requires Positioned(g) && g.curTrack + 1 >= |g.sets[g.curSet].tracks| && g.curSet + 1 == |g.sets|
    ensures Next(g) == Step(ShowBoundary(g.id, g.name, "End"), None)
  {
  }

  /** Inside a set, "previous" shows the preceding track and stores it as the cursor. */
  lemma PrevWithinSet(g: Gig)
    requires Positioned(g) && 0 <= g.curTrack - 1 < |g.sets[g.curSet].tracks|
    ensures Prev(g) == Step(TrackAt(g.(curTrack := g.curTrack - 1)), Some(g.(curTrack := g.curTrack - 1)))
  {
  }

  /** Below track 0 of a set that is not the first, "previous" announces its beginning and parks past the last track of the set before. */
  lemma PrevBeginningOfSet(g: Gig)
    requires Positioned(g) && g.curTrack - 1 < 0 && 0 < g.curSet
    ensures Prev(g) == Step(SetBoundary(g.id, g.name, g.sets[g.curSet].name, "Beginning"),
                            Some(g.(curSet := g.curSet - 1, curTrack := |g.sets[g.curSet - 1].tracks|)))
  {
  }

  /** Below track 0 of the first set, "previous" announces the beginning of the show and stores nothing. */
  lemma PrevBeginningOfShow(g: Gig)
    requires Positioned(g) && g.curTrack - 1 < 0 && g.curSet == 0
    ensures Prev(g) == Step(ShowBoundary(g.id, g.name, "Beginning"), None)
  {
  }

  /** Inside a set, "next" followed by "previous" returns to the track the cursor was on. */
  lemma NextThenPrev(g: Gig)
    requires OnTrack(g) && g.curTrack + 1 < |g.sets[g.curSet].tracks|
    ensures Next(g).stored.Some?
    ensures Prev(Next(g).stored.value) == Step(TrackAt(g), Some(g))
  {
  }

  /** Inside a set, "previous" followed by "next" returns to the track the cursor was on. */
  lemma PrevThenNext(g: Gig)
    requires OnTrack(g) && 0 < g.curTrack
    ensures Prev(g).stored.Some?
    ensures Next(Prev(g).stored.value) == Step(TrackAt(g), Some(g))
  {
  }

  /** After a set boundary, the next "next" lands on track 0 of the new set (or passes straight on when that set is empty). */
  lemma NextAfterSetEnd(g: Gig)
    requires Positioned(g) && g.curTrack + 1 >= |g.sets[g.curSet].tracks| && g.curSet + 1 < |g.sets|
    requires |g.sets[g.curSet + 1].tracks| > 0
    ensures Next(g).stored.Some?
    ensures Next(Next(g).stored.value).page == TrackAt(g.(curSet := g.curSet + 1, curTrack := 0))
  {
  }

  /** After a set boundary going back, the next "previous" lands on the last track of the earlier set. */
  lemma PrevAfterSetBeginning(g: Gig)
    requires Positioned(g) && g.curTrack - 1 < 0 && 0 < g.curSet
    requires |g.sets[g.curSet - 1].tracks| > 0
    ensures Prev(g).stored.Some?
    ensures Prev(Prev(g).stored.value).page ==
            TrackAt(g.(curSet := g.curSet - 1, curTrack := |g.sets[g.curSet - 1].tracks| - 1))
  {
  }

  /** A fresh gig opens on track 0 of set 0 with that track's own key tone, and crashes exactly when that track is missing. */
  lemma OpeningOfNewGig(sl: Setlist, id: int)
    ensures var g := NewGig(sl).(id := id);
      && (OpeningPage(g) == Crash <==> (|sl.sets| == 0 || |sl.sets[0].tracks| == 0))
      && (OpeningPage(g) != Crash ==> OnTrack(g) && OpeningPage(g) == TrackAt(g))
  {
  }

  // ---------------------------------------------------------------------
  // Walking the whole show
  // ---------------------------------------------------------------------

  /** All tracks of the sets, in order. */
  function Flatten(ss: seq<Set>): (ts: seq<Track>)
    ensures ss == [] ==> ts == []
  {
    if ss == [] then [] else ss[0].tracks + Flatten(ss[1..])
  }

  /** The tracks after the cursor, in show order. */
  function Ahead(g: Gig): seq<Track>
    requires Positioned(g)
  {
    var ts := g.sets[g.curSet].tracks;
    (if g.curTrack + 1 < |ts| then ts[g.curTrack + 1..] else []) + Flatten(g.sets[g.curSet + 1..])
  }

  /** The pages shown by pressing "next" until the end of the show. */
  function WalkNext(g: Gig): (ps: seq<Page>)
    requires Positioned(g)
    ensures |ps| >= 1
    decreases |g.sets| - g.curSet, |g.sets[g.curSet].tracks| - g.curTrack
  {
    var st := Next(g);
    if st.stored.None? then [st.page] else [st.page] + WalkNext(st.stored.value)
  }

  /** The tracks on a sequence of pages. */
  function Shown(ps: seq<Page>): (ts: seq<Track>)
    ensures |ts| <= |ps|
  {
    if ps == [] then []
    else (if ps[0].TrackPage? then [ps[0].track] else []) + Shown(ps[1..])
  }

  /** The tracks shown by a page followed by more pages. */
  lemma ShownCons(p: Page, ps: seq<Page>)
    ensures Shown([p] + ps) == (if p.TrackPage? then [p.track] else []) + Shown(ps)
  {
    assert ([p] + ps)[1..] == ps;
  }

  /** A step within a set moves the first track ahead onto the page. */
  lemma AheadWithinSet(g: Gig, h: Gig)
    requires Positioned(g) && Positioned(h) && OnTrack(h) && SameShow(g, h)
    requires h.curSet == g.curSet && h.curTrack == g.curTrack + 1
    ensures Ahead(g) == [TrackAt(h).track] + Ahead(h)
  {
    var ts := g.sets[g.curSet].tracks;
    var rest := if h.curTrack + 1 < |ts| then ts[h.curTrack + 1..] else [];
    assert ts[g.curTrack + 1..] == [ts[h.curTrack]] + rest;
  }

  /** Crossing into the next set leaves the tracks ahead unchanged. */
  lemma AheadNextSet(g: Gig, h: Gig)
    requires Positioned(g) && Positioned(h) && SameShow(g, h)
    requires h.curSet == g.curSet + 1 && h.curTrack == -1
    requires g.curTrack + 1 >= |g.sets[g.curSet].tracks|
    ensures Ahead(g) == Ahead(h)
  {
    var tail := g.sets[g.curSet + 1..];
    assert tail[0] == g.sets[h.curSet];
    assert tail[1..] == g.sets[h.curSet + 1..];
    assert h.sets[h.curSet].tracks[0..] == h.sets[h.curSet].tracks;
  }

  /**
    Pressing "next" from any valid cursor shows every remaining track exactly
    once, in order, skipping none, and finishes on the end-of-show page.
  */
  lemma {:induction false} WalkNextShowsAhead(g: Gig)
    requires Positioned(g)
    ensures Shown(WalkNext(g)) == Ahead(g)
    ensures WalkNext(g)[|WalkNext(g)| - 1] == ShowBoundary(g.id, g.name, "End")
    decreases |g.sets| - g.curSet, |g.sets[g.curSet].tracks| - g.curTrack
  {
    var st := Next(g);
    if st.stored.None? {
      assert g.sets[g.curSet + 1..] == [];
    } else {
      var h := st.stored.value;
      WalkNextShowsAhead(h);
      ShownCons(st.page, WalkNext(h));
      if h.curSet == g.curSet {
        AheadWithinSet(g, h);
      } else {
        AheadNextSet(g, h);
      }
    }
  }

  /** A show started on its first track, then walked with "next", shows every track of the setlist in order. */
  lemma WholeShow(sl: Setlist, id: int)
    requires |sl.sets| > 0 && |sl.sets[0].tracks| > 0
    ensures var g := NewGig(sl).(id := id);
      [OpeningPage(g).track] + Shown(WalkNext(g)) == Flatten(sl.sets)
  {
    var g := NewGig(sl).(id := id);
    OpeningAhead(sl, g);
    WalkNextShowsAhead(g);
  }

  /** The opening track followed by the tracks ahead of it is the whole setlist. */
  lemma OpeningAhead(sl: Setlist, g: Gig)
    requires |sl.sets| > 0 && |sl.sets[0].tracks| > 0
    requires g.sets == sl.sets && g.curSet == 0 && g.curTrack == 0
    ensures Positioned(g) && OpeningPage(g).TrackPage?
    ensures [OpeningPage(g).track] + Ahead(g) == Flatten(sl.sets)
  {
    var ts := sl.sets[0].tracks;
    assert OpeningPage(g).track == ts[0];
    assert Ahead(g) == (if 1 < |ts| then ts[1..] else []) + Flatten(sl.sets[1..]);
    assert Flatten(sl.sets) == ts + Flatten(sl.sets[1..]);
    assert ts == [ts[0]] + (if 1 < |ts| then ts[1..] else []);
  }
}
