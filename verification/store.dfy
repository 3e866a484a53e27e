/** The "tokens" collection of the database, seen through the two operations the
    tokenizer uses (`Find(...).One(...)` and `Insert`) and the two unique indexes
    created when the tokenizer is set up. */
module TokenStore {
  import opened Wrappers

  /** One document of the collection: an original text and the token standing for it. */
  datatype TokenRecord = TokenRecord(text: string, token: string)

  /** The collection in natural (insertion) order: inserts append, nothing is ever
      updated or removed. */
  type Collection = seq<TokenRecord>

  /** The errors the database driver reports. */
  datatype DbError =
    | NotFound                   // a query matched no document
    | LastError(code: int)       // a write refused by the server, with its error code
    | Transport(reason: string)  // anything else: lost connection, timeout, ...

  /** The server's error code for a write that would break a unique index. */
  const DuplicateKeyCode: int := 11000

  predicate IsDuplicateKey(e: DbError) {
    e.LastError? && e.code == DuplicateKeyCode
  }

  /** The unique index on the original text. */
  predicate UniqueOriginals(db: Collection) {
    forall i, j :: 0 <= i < j < |db| ==> db[i].text != db[j].text
  }

  /** The unique index on the token. */
  predicate UniqueTokens(db: Collection) {
    forall i, j :: 0 <= i < j < |db| ==> db[i].token != db[j].token
  }

  /** Both unique indexes hold: the collection is a one-to-one map between
      originals and tokens. */
  predicate Valid(db: Collection) {
    UniqueOriginals(db) && UniqueTokens(db)
  }

  /** The two queries the tokenizer issues: by original text and by token. */
  datatype Query = ByOriginal(text: string) | ByToken(token: string)

  predicate Matches(rec: TokenRecord, q: Query) {
    match q
    case ByOriginal(s) => rec.text == s
    case ByToken(t) => rec.token == t
  }

  /** Position of the first document, in natural order, that matches `q`. */
  function FirstMatch(db: Collection, q: Query): (r: Option<nat>)
    ensures r.Some? ==> r.value < |db| && Matches(db[r.value], q)
    ensures r.Some? ==> forall j :: 0 <= j < r.value ==> !Matches(db[j], q)
    ensures r.None? ==> forall j :: 0 <= j < |db| ==> !Matches(db[j], q)
  {
    if |db| == 0 then None
    else if Matches(db[0], q) then Some(0)
    else
      match FirstMatch(db[1..], q)
      case None => None
      case Some(k) => Some(k + 1)
  }

  /** `Find(q).One(&result)`: the first matching document, `NotFound` when there is
      none, or the failure `fault` the driver reports instead of answering. */
  function FindOne(db: Collection, q: Query, fault: Option<DbError>): (r: Result<TokenRecord, DbError>)
    ensures fault.Some? ==> r == Failure(fault.value)
    ensures fault.None? ==> (r.Failure? <==> forall rec :: rec in db ==> !Matches(rec, q))
    ensures fault.None? && r.Failure? ==> r.error == NotFound
    ensures r.Success? ==> r.value in db && Matches(r.value, q)
  {
    if fault.Some? then Failure(fault.value)
    else
      match FirstMatch(db, q)
      case None => Failure(NotFound)
      case Some(i) => Success(db[i])
  }

  /** Under the unique indexes at most one document matches a query, so `One()`
      returns exactly that document. */
  lemma OnlyMatch(db: Collection, q: Query)
    ensures Valid(db) ==>
              forall rec :: rec in db && Matches(rec, q) ==> FindOne(db, q, None) == Success(rec)
  {
  }

  /** Would `rec` share its original or its token with a stored document? */
  predicate Clashes(db: Collection, rec: TokenRecord) {
    exists i :: 0 <= i < |db| && (db[i].text == rec.text || db[i].token == rec.token)
  }

  /** `Insert(&rec)`: the document is appended unless it would break a unique index
      (duplicate-key error 11000) or the driver reports the failure `fault`. */
  function Insert(db: Collection, rec: TokenRecord, fault: Option<DbError>): (r: Result<Collection, DbError>)
    ensures fault.Some? ==> r == Failure(fault.value)
    ensures r.Success? ==> r.value == db + [rec]
    ensures fault.None? && Valid(db) ==> (r.Success? <==> Valid(db + [rec]))
    ensures fault.None? && r.Failure? ==> IsDuplicateKey(r.error)
    ensures r.Success? && Valid(db) ==> Valid(r.value)
  {
    if fault.Some? then Failure(fault.value)
    else if Clashes(db, rec) then
      ClashBreaksIndex(db, rec);
      Failure(LastError(DuplicateKeyCode))
    else Success(db + [rec])
  }

  /** A clashing document breaks one of the unique indexes once appended. */
  lemma ClashBreaksIndex(db: Collection, rec: TokenRecord)
    requires Clashes(db, rec)
    ensures !Valid(db + [rec])
  {
    var i :| 0 <= i < |db| && (db[i].text == rec.text || db[i].token == rec.token);
    var db' := db + [rec];
    assert db'[i] == db[i] && db'[|db|] == rec;
  }

  /** What other tokenizer processes write between our lookup and our insert: each
      of their documents goes through the same unique indexes, and those that would
      break one are refused. */
  function Interleave(db: Collection, rivals: seq<TokenRecord>): (r: Collection)
    ensures |db| <= |r| && r[..|db|] == db
    ensures forall i :: |db| <= i < |r| ==> r[i] in rivals
    ensures Valid(db) ==> Valid(r)
    decreases |rivals|
  {
    if |rivals| == 0 then db
    else
      var db1 := match Insert(db, rivals[0], None)
                 case Success(d) => d
                 case Failure(_) => db;
      var r := Interleave(db1, rivals[1..]);
      assert db1 == db || db1 == db + [rivals[0]];
      assert r[..|db1|] == db1;
      assert forall i :: |db| <= i < |r| ==> r[i] in rivals by {
        forall i | |db| <= i < |r| ensures r[i] in rivals {
          if i < |db1| {
            assert r[i] == db1[i] == rivals[0];
          } else {
            assert r[i] in rivals[1..];
          }
        }
      }
      assert r[..|db|] == db1[..|db|];
      r
  }
}
