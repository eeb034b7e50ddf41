/**
  The gig session store (db/gigdb.go): a table of encoded gigs keyed by a
  random id.  The table is a map from id to payload; `Gigs()` is its
  decoded view.  The store keeps every payload decodable and keyed by the
  id the gig itself carries.
*/
module GigDb {
  import opened Wrappers
  import opened Entity
  import opened GigCodec

  /** Ids are drawn uniformly from [0, IdBound). */
  const IdBound := 0x7FFF_FFFF

  datatype DbError =
    | NoRows        // no record under the requested id
    | Corrupt       // the stored payload does not decode
    | DuplicateKey  // the drawn id is already in use (the id column is the primary key)

  class GigTable {
    var rows: map<int, Payload>

    ghost predicate Valid()
      reads this
    {
      forall id | id in rows :: Decode(rows[id]).Some? && Decode(rows[id]).value.id == id
    }

    /** The decoded contents of the table. */
    ghost function Gigs(): map<int, Gig>
      reads this
      requires Valid()
    {
      map id | id in rows :: Decode(rows[id]).value
    }

    constructor ()
      ensures Valid() && rows == map[]
    {
      rows := map[];
    }

    /**
      Creates and stores a gig for a setlist under a freshly drawn id.  The
      id column is the primary key, so a collision fails the insert.
    */
    method NewGig(sl: Setlist) returns (r: Result<Gig, DbError>, ghost drawn: int)
      requires Valid()
      modifies this
      ensures Valid()
      ensures 0 <= drawn < IdBound
      ensures r.Failure? <==> drawn in old(rows)
      ensures r.Success? ==>
        && r.value.id == drawn
        && r.value == Entity.NewGig(sl).(id := drawn)
        && Gigs() == old(Gigs())[drawn := r.value]
      ensures r.Failure? ==> r.error == DuplicateKey && rows == old(rows)
    {
      var id :| 0 <= id < IdBound;
      drawn := id;
      var g := Entity.NewGig(sl);
      g := g.(id := id);
      var payload := Encode(g);
      if id in rows {
        r := Failure(DuplicateKey);
        return;
      }
      DecodeEncode(g);
      rows := rows[id := payload];
      r := Success(g);
    }

    /** Reads back the gig stored under `id`. */
    method GetGig(id: int) returns (r: Result<Gig, DbError>)
      requires Valid()
      ensures id !in rows ==> r == Failure(NoRows)
      ensures id in rows ==> r == Success(Gigs()[id])
      ensures r.Success? ==> r.value.id == id
    {
      if id !in rows {
        return Failure(NoRows);
      }
      var g := Decode(rows[id]);
      if g.None? {
        return Failure(Corrupt);
      }
      r := Success(g.value);
    }

    /**
      Overwrites the record under the gig's own id.  On an id with no record
      nothing changes and no error is reported.
    */
    method UpdateGig(g: Gig)
      requires Valid()
      modifies this
      ensures Valid()
      ensures g.id in old(rows) ==> Gigs() == old(Gigs())[g.id := g]
      ensures g.id !in old(rows) ==> rows == old(rows)
    {
      if g.id in rows {
        DecodeEncode(g);
        rows := rows[g.id := Encode(g)];
      }
    }

    /** Deletes the record under `id`, if there is one. */
    method RemoveGig(id: int)
      requires Valid()
      modifies this
      ensures Valid()
      ensures Gigs() == old(Gigs()) - {id}
    {
      rows := rows - {id};
    }

    /** Deletes every record. */
    method CleanupGigs()
      requires Valid()
      modifies this
      ensures Valid()
      ensures Gigs() == map[]
    {
      rows := map[];
    }
  }
}
