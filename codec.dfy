/**
  The payload format of a stored gig.  The source serialises a gig with a
  library codec into an opaque blob; this model uses a small self-describing
  format of tagged fields with length-prefixed lists, and proves that
  decoding an encoded gig gives the gig back.
*/
module GigCodec {
  import opened Wrappers
  import opened Entity

  datatype Field = IntField(i: int) | StrField(s: string) | BoolField(b: bool)

  type Payload = seq<Field>

  function EncodeNamed(n: Named): Payload
  {
    [IntField(n.id), StrField(n.name)]
  }

  function EncodeTrack(t: Track): Payload
  {
    [IntField(t.id), StrField(t.title), IntField(t.tempo), BoolField(t.click), StrField(t.keyTone)]
    + EncodeNamed(t.vox) + EncodeNamed(t.era) + EncodeNamed(t.genre) + EncodeNamed(t.kit)
    + [IntField(t.lyrics.id), StrField(t.lyrics.rawText)]
  }

  function EncodeTracks(ts: seq<Track>): Payload
  {
    if ts == [] then [] else EncodeTrack(ts[0]) + EncodeTracks(ts[1..])
  }

  function EncodeSet(s: Set): Payload
  {
    [IntField(s.id), IntField(s.setlistId), IntField(s.setNum), StrField(s.name), IntField(|s.tracks|)]
    + EncodeTracks(s.tracks)
  }

  function EncodeSets(ss: seq<Set>): Payload
  {
    if ss == [] then [] else EncodeSet(ss[0]) + EncodeSets(ss[1..])
  }

  /** The full payload of a gig: header fields, then its sets. */
  function Encode(g: Gig): Payload
  {
    [IntField(g.id), StrField(g.name), IntField(g.curSet), IntField(g.curTrack), IntField(|g.sets|)]
    + EncodeSets(g.sets)
  }

  function DecodeNamed(p: Payload): Option<(Named, Payload)>
  {
    if |p| >= 2 && p[0].IntField? && p[1].StrField? then Some((Named(p[0].i, p[1].s), p[2..]))
    else None
  }

  /** Two named values in a row. */
  function DecodeNamedPair(p: Payload): Option<((Named, Named), Payload)>
  {
    match DecodeNamed(p)
    case None => None
    case Some((a, p1)) =>
      match DecodeNamed(p1)
      case None => None
      case Some((b, p2)) => Some(((a, b), p2))
  }

  /** The fields after a track's voice, era, genre and kit: its lyrics. */
  function DecodeLyrics(p: Payload): Option<(Lyrics, Payload)>
  {
    if |p| >= 2 && p[0].IntField? && p[1].StrField? then Some((Lyrics(p[0].i, p[1].s), p[2..])) else None
  }

  function DecodeTrack(p: Payload): Option<(Track, Payload)>
  {
    if |p| >= 5 && p[0].IntField? && p[1].StrField? && p[2].IntField? && p[3].BoolField? && p[4].StrField? then
      match DecodeNamedPair(p[5..])
      case None => None
      case Some((voxEra, p1)) =>
        match DecodeNamedPair(p1)
        case None => None
        case Some((genreKit, p2)) =>
          match DecodeLyrics(p2)
          case None => None
          case Some((lyrics, p3)) =>
            Some((Track(p[0].i, p[1].s, p[2].i, p[3].b, p[4].s, voxEra.0, voxEra.1, genreKit.0, genreKit.1, lyrics), p3))
    else None
  }

  /** Decodes exactly `n` tracks from the front of `p`. */
  function DecodeTracks(n: nat, p: Payload): Option<(seq<Track>, Payload)>
    decreases n
  {
    if n == 0 then Some(([], p))
    else
      match DecodeTrack(p)
      case None => None
      case Some((t, p1)) =>
        match DecodeTracks(n - 1, p1)
        case None => None
        case Some((ts, p2)) => Some(([t] + ts, p2))
  }

  function DecodeSet(p: Payload): Option<(Set, Payload)>
  {
    if |p| >= 5 && p[0].IntField? && p[1].IntField? && p[2].IntField? && p[3].StrField? && p[4].IntField? && p[4].i >= 0 then
      match DecodeTracks(p[4].i, p[5..])
      case None => None
      case Some((ts, p1)) => Some((Set(p[0].i, p[1].i, p[2].i, p[3].s, ts), p1))
    else None
  }

  function DecodeSets(n: nat, p: Payload): Option<(seq<Set>, Payload)>
    decreases n
  {
    if n == 0 then Some(([], p))
    else
      match DecodeSet(p)
      case None => None
      case Some((s, p1)) =>
        match DecodeSets(n - 1, p1)
        case None => None
        case Some((ss, p2)) => Some(([s] + ss, p2))
  }

  /** Decoding fails on a malformed payload or on trailing fields. */
  function Decode(p: Payload): Option<Gig>
  {
    if |p| >= 5 && p[0].IntField? && p[1].StrField? && p[2].IntField? && p[3].IntField? && p[4].IntField? && p[4].i >= 0 then
      match DecodeSets(p[4].i, p[5..])
      case Some((ss, rest)) =>
        if rest == [] then Some(Gig(p[0].i, p[1].s, p[2].i, p[3].i, ss)) else None
      case None => None
    else None
  }

  lemma DecodeNamedAfterEncode(n: Named, rest: Payload)
    ensures DecodeNamed(EncodeNamed(n) + rest) == Some((n, rest))
  {
    assert (EncodeNamed(n) + rest)[2..] == rest;
  }

  lemma DecodeNamedPairAfterEncode(a: Named, b: Named, rest: Payload)
    ensures DecodeNamedPair(EncodeNamed(a) + EncodeNamed(b) + rest) == Some(((a, b), rest))
  {
    assert EncodeNamed(a) + EncodeNamed(b) + rest == EncodeNamed(a) + (EncodeNamed(b) + rest);
    DecodeNamedAfterEncode(a, EncodeNamed(b) + rest);
    DecodeNamedAfterEncode(b, rest);
  }

  /** Where the parts of an encoded track sit in front of whatever follows it. */
  lemma EncodeTrackLayout(t: Track, rest: Payload)
    ensures var p := EncodeTrack(t) + rest;
      && |p| >= 5 && p[0] == IntField(t.id) && p[1] == StrField(t.title) && p[2] == IntField(t.tempo)
      && p[3] == BoolField(t.click) && p[4] == StrField(t.keyTone)
      && p[5..] == EncodeNamed(t.vox) + EncodeNamed(t.era)
                   + (EncodeNamed(t.genre) + EncodeNamed(t.kit) + ([IntField(t.lyrics.id), StrField(t.lyrics.rawText)] + rest))
  {
    var head := [IntField(t.id), StrField(t.title), IntField(t.tempo), BoolField(t.click), StrField(t.keyTone)];
    var tail := EncodeNamed(t.vox) + EncodeNamed(t.era)
                + (EncodeNamed(t.genre) + EncodeNamed(t.kit) + ([IntField(t.lyrics.id), StrField(t.lyrics.rawText)] + rest));
    assert EncodeTrack(t) + rest == head + tail;
  }

  lemma DecodeTrackAfterEncode(t: Track, rest: Payload)
    ensures DecodeTrack(EncodeTrack(t) + rest) == Some((t, rest))
  {
    var p3 := [IntField(t.lyrics.id), StrField(t.lyrics.rawText)] + rest;
    var p2 := EncodeNamed(t.genre) + EncodeNamed(t.kit) + p3;
    EncodeTrackLayout(t, rest);
    DecodeNamedPairAfterEncode(t.vox, t.era, p2);
    DecodeNamedPairAfterEncode(t.genre, t.kit, p3);
    assert p3[2..] == rest;
    DecodeTrackParts(EncodeTrack(t) + rest, (t.vox, t.era), p2, (t.genre, t.kit), p3, t.lyrics, rest);
  }

  /** Decoding a track from its parts. */
  lemma DecodeTrackParts(p: Payload, ve: (Named, Named), p2: Payload, gk: (Named, Named), p3: Payload, l: Lyrics, rest: Payload)
    requires |p| >= 5 && p[0].IntField? && p[1].StrField? && p[2].IntField? && p[3].BoolField? && p[4].StrField?
    requires DecodeNamedPair(p[5..]) == Some((ve, p2))
    requires DecodeNamedPair(p2) == Some((gk, p3))
    requires DecodeLyrics(p3) == Some((l, rest))
    ensures DecodeTrack(p) == Some((Track(p[0].i, p[1].s, p[2].i, p[3].b, p[4].s, ve.0, ve.1, gk.0, gk.1, l), rest))
  {
  }

  /** One step of decoding a list of tracks. */
  lemma DecodeTracksCons(n: nat, p: Payload, t: Track, p1: Payload, ts: seq<Track>, p2: Payload)
    requires n > 0 && DecodeTrack(p) == Some((t, p1)) && DecodeTracks(n - 1, p1) == Some((ts, p2))
    ensures DecodeTracks(n, p) == Some(([t] + ts, p2))
  {
  }

  lemma {:induction false} DecodeTracksAfterEncode(ts: seq<Track>, rest: Payload)
    ensures DecodeTracks(|ts|, EncodeTracks(ts) + rest) == Some((ts, rest))
  {
    if ts != [] {
      var p1 := EncodeTracks(ts[1..]) + rest;
      assert EncodeTracks(ts) + rest == EncodeTrack(ts[0]) + p1;
      DecodeTrackAfterEncode(ts[0], p1);
      DecodeTracksAfterEncode(ts[1..], rest);
      DecodeTracksCons(|ts|, EncodeTrack(ts[0]) + p1, ts[0], p1, ts[1..], rest);
      assert [ts[0]] + ts[1..] == ts;
    } else {
      assert EncodeTracks(ts) + rest == rest;
    }
  }

  lemma DecodeSetAfterEncode(s: Set, rest: Payload)
    ensures DecodeSet(EncodeSet(s) + rest) == Some((s, rest))
  {
    var p := EncodeSet(s) + rest;
    assert p[5..] == EncodeTracks(s.tracks) + rest;
    DecodeTracksAfterEncode(s.tracks, rest);
  }

  /** One step of decoding a list of sets. */
  lemma DecodeSetsCons(n: nat, p: Payload, s: Set, p1: Payload, ss: seq<Set>, p2: Payload)
    requires n > 0 && DecodeSet(p) == Some((s, p1)) && DecodeSets(n - 1, p1) == Some((ss, p2))
    ensures DecodeSets(n, p) == Some(([s] + ss, p2))
  {
  }

  lemma {:induction false} DecodeSetsAfterEncode(ss: seq<Set>, rest: Payload)
    ensures DecodeSets(|ss|, EncodeSets(ss) + rest) == Some((ss, rest))
  {
    if ss != [] {
      var p1 := EncodeSets(ss[1..]) + rest;
      assert EncodeSets(ss) + rest == EncodeSet(ss[0]) + p1;
      DecodeSetAfterEncode(ss[0], p1);
      DecodeSetsAfterEncode(ss[1..], rest);
      DecodeSetsCons(|ss|, EncodeSet(ss[0]) + p1, ss[0], p1, ss[1..], rest);
      assert [ss[0]] + ss[1..] == ss;
    } else {
      assert EncodeSets(ss) + rest == rest;
    }
  }

  /** Round trip: every gig, in any cursor position, decodes back from its payload. */
  lemma DecodeEncode(g: Gig)
    ensures Decode(Encode(g)) == Some(g)
  {
    var p := Encode(g);
    assert p[5..] == EncodeSets(g.sets) + [];
    DecodeSetsAfterEncode(g.sets, []);
  }

  /** Hence the encoding is injective: distinct gigs have distinct payloads. */
  lemma EncodeInjective(g1: Gig, g2: Gig)
    requires Encode(g1) == Encode(g2)
    ensures g1 == g2
  {
    DecodeEncode(g1);
    DecodeEncode(g2);
  }
}
