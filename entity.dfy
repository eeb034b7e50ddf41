/**
  The catalog records shared by every part of the system (entity.go):
  tracks with their voice, era, genre and kit, sets, setlists, and the
  gig, a by-value snapshot of a setlist plus a two-level cursor.
*/
module Entity {
  import Mark

  /** Vox, Era, Genre and Kit are the same record in the source: an id and a name. */
  datatype Named = Named(id: int, name: string)
  type Vox = Named
  type Era = Named
  type Genre = Named
  type Kit = Named

  datatype Lyrics = Lyrics(id: int, rawText: string)

  datatype Track = Track(
    id: int,
    title: string,
    tempo: int,
    click: bool,
    keyTone: string,
    vox: Vox,
    era: Era,
    genre: Genre,
    kit: Kit,
    lyrics: Lyrics)

  datatype Set = Set(id: int, setlistId: int, setNum: int, name: string, tracks: seq<Track>)
  {
    /** Number of tracks in the set. */
    function TrackCount(): (n: nat)
      ensures n == |tracks|
    {
      |tracks|
    }
  }

  datatype Setlist = Setlist(id: int, name: string, sets: seq<Set>, timestamp: int)
  {
    /** Number of sets in the setlist. */
    function SetCount(): (n: nat)
      ensures n == |sets|
    {
      |sets|
    }
  }

  /**
    A gig in progress: `curSet` indexes `sets` and `curTrack` indexes the
    tracks of the current set.  The cursor is a plain pair of ints, so the
    navigation code may store the markers -1 and "track count" in it.
  */
  datatype Gig = Gig(id: int, name: string, curSet: int, curTrack: int, sets: seq<Set>)

  /** The zero values of the source's structs. */
  const ZeroNamed := Named(0, "")
  const ZeroLyrics := Lyrics(0, "")
  const ZeroTrack := Track(0, "", 0, false, "", ZeroNamed, ZeroNamed, ZeroNamed, ZeroNamed, ZeroLyrics)
  const ZeroSet := Set(0, 0, 0, "", [])

  /**
    A fresh gig over a setlist: named after it, cursor at the first track of
    the first set, and a copy of the setlist's sets in order.  The id is left
    at zero; the session store assigns it.
  */
  function NewGig(sl: Setlist): (g: Gig)
    ensures g.id == 0 && g.name == sl.name
    ensures g.curSet == 0 && g.curTrack == 0
    ensures |g.sets| == |sl.sets|
    ensures forall i :: 0 <= i < |sl.sets| ==> g.sets[i] == sl.sets[i]
  {
    Gig(0, sl.name, 0, 0, [] + sl.sets)
  }

  /**
    Lyrics are rendered by splitting the raw text into lines and handing
    them to the markup renderer; `scan` stands for the tokenizer applied to
    each line.
  */
  method LyricsPrettyText(l: Lyrics, maxRows: int, scan: string -> seq<Mark.Token>) returns (html: string)
    ensures html == Mark.Pretty(Mark.Lines(l.rawText), maxRows, scan)
  {
    var m := Mark.NewMarkText(l.rawText);
    html := Mark.PrettyText(m, maxRows, scan);
  }
}
