// api/storer.go: five keyed tables, one per kind of record. Each table has a
// unique `id` index that folds case, so a table is a map from the lower-cased
// ID to the record stored under it. Transactions (begin, abort, commit) are
// collapsed into the single update each operation performs.
module ApiStorer {
  import opened Common

  datatype Kind = AccessPolicyKind | NomadClusterKind | VaultClusterKind | ConsulClusterKind | TerraformWorkspaceKind

  /** The per-kind "not found" and "already exists" errors, and the index's
      refusal to insert a record whose ID is empty (an empty string field
      gives the `id` index no value, and every record must have one). */
  datatype StoreError = NotFound(kind: Kind) | AlreadyExists(kind: Kind) | MissingPrimaryIndex

  /** The index key of an ID: the index lower-cases before comparing. */
  function Key(id: string): string {
    Lower(id)
  }

  /** Two IDs name the same row exactly when they agree letter by letter up to case. */
  lemma {:induction false} SameRowIffCaseInsensitive(a: string, b: string)
    ensures Key(a) == Key(b) <==> (|a| == |b| && forall i :: 0 <= i < |a| ==> LowerChar(a[i]) == LowerChar(b[i]))
  {
    if |a| == |b| && forall i :: 0 <= i < |a| ==> LowerChar(a[i]) == LowerChar(b[i]) {
      assert forall i :: 0 <= i < |a| ==> Key(a)[i] == Key(b)[i];
    }
  }

  /** Lower-casing a key again changes nothing. */
  lemma {:induction false} KeyIdempotent(id: string)
    ensures Key(Key(id)) == Key(id)
  {
    forall i | 0 <= i < |id|
      ensures Key(Key(id))[i] == Key(id)[i]
    {
      var c := id[i];
      assert 'A' <= LowerChar(c) <= 'Z' ==> false;
    }
  }

  /** One table: the rows currently stored, keyed by the lower-cased ID. */
  class Table<R> {
    const kind: Kind
    var rows: map<string, R>

    constructor (kind: Kind)
      ensures this.kind == kind
      ensures rows == map[]
    {
      this.kind := kind;
      rows := map[];
    }

    /** First row whose ID matches, or this kind's NotFound. */
    method Get(id: string) returns (r: Result<R, StoreError>)
      ensures Key(id) in rows ==> r == Ok(rows[Key(id)])
      ensures Key(id) !in rows ==> r == Err(NotFound(kind))
    {
      var k := Key(id);
      if k in rows {
        r := Ok(rows[k]);
      } else {
        r := Err(NotFound(kind));
      }
    }

    /** Insert a record whose ID is not yet taken; an existing ID (in any
        letter case) is AlreadyExists, an empty ID cannot be indexed, and in
        both cases the table is left as it was. */
    method Create(id: string, rec: R) returns (err: Option<StoreError>)
      modifies this
      ensures Key(id) in old(rows) ==> err == Some(AlreadyExists(kind)) && rows == old(rows)
      ensures Key(id) !in old(rows) && id == "" ==> err == Some(MissingPrimaryIndex) && rows == old(rows)
      ensures Key(id) !in old(rows) && id != "" ==> err == None && rows == old(rows)[Key(id) := rec]
    {
      var k := Key(id);
      if k in rows {
        return Some(AlreadyExists(kind));
      }
      if id == "" {
        return Some(MissingPrimaryIndex);
      }
      rows := rows[k := rec];
      err := None;
    }

    /** Replace the whole record stored under an existing ID. The insert
        refuses an empty ID here too, though no row is ever stored under it. */
    method Update(id: string, rec: R) returns (err: Option<StoreError>)
      modifies this
      ensures Key(id) !in old(rows) ==> err == Some(NotFound(kind)) && rows == old(rows)
      ensures Key(id) in old(rows) && id == "" ==> err == Some(MissingPrimaryIndex) && rows == old(rows)
      ensures Key(id) in old(rows) && id != "" ==> err == None && rows == old(rows)[Key(id) := rec]
    {
      var k := Key(id);
      if k !in rows {
        return Some(NotFound(kind));
      }
      if id == "" {
        return Some(MissingPrimaryIndex);
      }
      rows := rows[k := rec];
      err := None;
    }

    /** Remove the record stored under an existing ID. */
    method Delete(id: string) returns (err: Option<StoreError>)
      modifies this
      ensures Key(id) !in old(rows) ==> err == Some(NotFound(kind)) && rows == old(rows)
      ensures Key(id) in old(rows) ==> err == None && rows == old(rows) - {Key(id)}
    {
      var k := Key(id);
      if k !in rows {
        return Some(NotFound(kind));
      }
      rows := rows - {k};
      err := None;
    }
  }

  /** A Create followed by a Get of the same ID (in any letter case) returns
      the record; on a taken ID the Create fails and nothing changes. */
  method CreateThenGet<R>(t: Table<R>, id: string, other: string, rec: R) returns (created: Option<StoreError>, got: Result<R, StoreError>)
    requires Key(other) == Key(id)
    modifies t
    ensures Key(id) !in old(t.rows) && id != "" ==> created == None && got == Ok(rec)
    ensures Key(id) !in old(t.rows) && id == "" ==> created == Some(MissingPrimaryIndex) && got == Err(NotFound(t.kind))
    ensures Key(id) in old(t.rows) ==> created == Some(AlreadyExists(t.kind)) && got == Ok(old(t.rows)[Key(id)])
  {
    created := t.Create(id, rec);
    got := t.Get(other);
  }

  /** After a successful Delete, a Get of the same ID is NotFound. */
  method DeleteThenGet<R>(t: Table<R>, id: string) returns (deleted: Option<StoreError>, got: Result<R, StoreError>)
    modifies t
    ensures deleted == (if Key(id) in old(t.rows) then None else Some(NotFound(t.kind)))
    ensures got == Err(NotFound(t.kind))
  {
    deleted := t.Delete(id);
    got := t.Get(id);
  }
}
