/** The tokenize/detokenize protocol over the "tokens" collection.

    One call of `Tokenize` is a loop; each iteration looks the original up, and on a
    miss mints a candidate token and tries to insert it, retrying from the lookup
    when the insert hits a unique index. Everything outside the tokenizer that the
    loop consults -- the driver's failures, the id generator, other processes
    writing to the same collection -- is handed in as a script of `Round`s, one per
    iteration. */
module Tokenizer {
  import opened Wrappers
  import opened TokenStore

  /** The errors a caller can see: the driver's, and the tokenizer's own. */
  datatype Error = Db(cause: DbError) | TokenNotFound

  /** A candidate token: the base64 text of a formatted guid, which is never empty. */
  type Token = t: string | |t| > 0 witness "AA=="

  /** One answer of the id generator: an already encoded candidate token, or a
      failure of the generator with its error message. */
  datatype Draw = Minted(token: Token) | GeneratorFailed(message: string)

  /** What the outside world does during one iteration of the loop. */
  datatype Round = Round(
    lookupFault: Option<DbError>,   // failure reported by the lookup, if any
    draw: Draw,                     // the generator's answer, used only on a miss
    rivals: seq<TokenRecord>,       // other writers' inserts, just before ours
    insertFault: Option<DbError>    // failure reported by our insert, if any
  )

  /** The message `log.Panic` formats from an error variable that holds nil. */
  const NilErrorText: string := "<nil>"

  /** How a call ends: Go's `(string, error)` return, a panic with the message
      `log.Panic` formatted, or (a modelling artefact) the script of rounds running
      out before the loop exits. */
  datatype Outcome =
    | Returned(value: string, err: Option<Error>)
    | Panicked(message: string)
    | Exhausted
  {
    /** A value returned with a nil error. */
    predicate Succeeded() {
      Returned? && err.None?
    }

    /** `Tokenize` handed out a token. Every error path of `Tokenize` returns "",
        so a non-empty value is a token even when it comes with an error (a freshly
        minted token comes with the lookup's NotFound). */
    predicate Issued() {
      Returned? && (err.None? || |value| > 0)
    }
  }

  /** After one iteration: leave the loop with an outcome, or go round again. */
  datatype Next = Stop(outcome: Outcome) | Again

  datatype Turn = Turn(next: Next, db: Collection)

  /** The outcome of a whole call together with the collection it leaves behind. */
  datatype Run = Run(outcome: Outcome, db: Collection)

  /** No stored document has original `s`. */
  predicate Unknown(db: Collection, s: string) {
    forall rec :: rec in db ==> rec.text != s
  }

  /** `fetchToken`: the token stored for original `s`. */
  function FetchToken(db: Collection, s: string, fault: Option<DbError>): (r: Result<string, DbError>)
    ensures r.Success? ==> TokenRecord(s, r.value) in db
    ensures fault.None? && Valid(db) ==>
              forall rec :: rec in db && rec.text == s ==> r == Success(rec.token)
    ensures fault.None? ==> (r == Failure(NotFound) <==> Unknown(db, s))
    ensures fault.Some? ==> r == Failure(fault.value)
  {
    OnlyMatch(db, ByOriginal(s));
    match FindOne(db, ByOriginal(s), fault)
    case Success(rec) => Success(rec.token)
    case Failure(e) => Failure(e)
  }

  /** One iteration of the `Tokenize` loop. Once the lookup has missed, the error
      the call returns is the lookup's `NotFound`, whatever the insert does: the
      insert's result goes into a second variable `err`, declared by
      `guid, err := ...` inside the loop body, while the function returns the outer
      one. So a freshly stored token comes back with `NotFound`, and so does the
      "" of an insert that failed otherwise than on a unique index. */
  function Step(db: Collection, s: string, rd: Round): (r: Turn)
    // an original already stored: its token, and no write
    ensures rd.lookupFault.None? && Valid(db) ==>
              forall rec :: rec in db && rec.text == s ==> r == Turn(Stop(Returned(rec.token, None)), db)
    // a failed lookup other than NotFound: returned as is, with no token and no write
    ensures rd.lookupFault.Some? && rd.lookupFault.value != NotFound ==>
              r == Turn(Stop(Returned("", Some(Db(rd.lookupFault.value)))), db)
    // a miss and a failing generator: a panic with the generator's message, and no write
    ensures rd.lookupFault.None? && Unknown(db, s) && rd.draw.GeneratorFailed? ==>
              r == Turn(Stop(Panicked(rd.draw.message)), db)
    // a miss with a working generator and a clean insert: the candidate is stored and
    // returned, together with the lookup's NotFound
    ensures rd.lookupFault.None? && Unknown(db, s) && rd.draw.Minted? && rd.insertFault.None? &&
            Valid(db) && Valid(Interleave(db, rd.rivals) + [TokenRecord(s, rd.draw.token)]) ==>
              r == Turn(Stop(Returned(rd.draw.token, Some(Db(NotFound)))),
                        Interleave(db, rd.rivals) + [TokenRecord(s, rd.draw.token)])
    // a miss and an insert failing otherwise than on a unique index: "" and NotFound
    ensures rd.lookupFault.None? && Unknown(db, s) && rd.draw.Minted? &&
            rd.insertFault.Some? && !IsDuplicateKey(rd.insertFault.value) ==>
              r == Turn(Stop(Returned("", Some(Db(NotFound)))), Interleave(db, rd.rivals))
    // a miss whose insert is refused by a unique index, or fails with a duplicate
    // key: a retry, with only the other writers' documents added
    ensures rd.lookupFault.None? && Unknown(db, s) && rd.draw.Minted? &&
            ((rd.insertFault.None? && Valid(db) &&
              !Valid(Interleave(db, rd.rivals) + [TokenRecord(s, rd.draw.token)])) ||
             (rd.insertFault.Some? && IsDuplicateKey(rd.insertFault.value))) ==>
              r == Turn(Again, Interleave(db, rd.rivals))
    // a retry happens only after a duplicate-key insert, which wrote nothing
    ensures r.next.Again? ==>
              rd.draw.Minted? && r.db == Interleave(db, rd.rivals) &&
              (rd.insertFault.Some? ==> IsDuplicateKey(rd.insertFault.value)) &&
              (rd.insertFault.None? && Valid(db) ==>
                 !Valid(Interleave(db, rd.rivals) + [TokenRecord(s, rd.draw.token)]))
    // the only panic is the generator's, with its message, before anything is written
    ensures r.next.Stop? && r.next.outcome.Panicked? ==>
              rd.draw.GeneratorFailed? && r.next.outcome.message == rd.draw.message && r.db == db
    ensures r.next != Stop(Exhausted)
    // a token handed out is stored against `s`
    ensures r.next.Stop? && r.next.outcome.Issued() ==> TokenRecord(s, r.next.outcome.value) in r.db
    // a nil error: the lookup found the token, and nothing was written
    ensures r.next.Stop? && r.next.outcome.Succeeded() ==> r.db == db
    // a token with an error: only the freshly stored candidate, with NotFound
    ensures r.next.Stop? && r.next.outcome.Returned? && r.next.outcome.err.Some? &&
            |r.next.outcome.value| > 0 ==>
              r.next.outcome.err == Some(Db(NotFound)) && rd.draw.Minted? &&
              r.next.outcome.value == rd.draw.token &&
              r.db == Interleave(db, rd.rivals) + [TokenRecord(s, rd.draw.token)]
    // "" with an error: the lookup's error or the shadowed NotFound, and nothing of ours written
    ensures r.next.Stop? && r.next.outcome.Returned? && r.next.outcome.err.Some? &&
            |r.next.outcome.value| == 0 ==>
              (r.next.outcome.err == Some(Db(NotFound)) ||
               (rd.lookupFault.Some? && r.next.outcome.err == Some(Db(rd.lookupFault.value)))) &&
              (r.db == db || r.db == Interleave(db, rd.rivals))
    // writes: none, the rivals' accepted documents, or those and then ours
    ensures r.db == db || r.db == Interleave(db, rd.rivals) ||
            (rd.draw.Minted? && r.next == Stop(Returned(rd.draw.token, Some(Db(NotFound)))) &&
             r.db == Interleave(db, rd.rivals) + [TokenRecord(s, rd.draw.token)])
    ensures Valid(db) ==> Valid(r.db)
  {
    match FetchToken(db, s, rd.lookupFault)
    case Success(token) => Turn(Stop(Returned(token, None)), db)
    case Failure(err) =>
      if err != NotFound then Turn(Stop(Returned("", Some(Db(err)))), db)
      else
        match rd.draw
        case GeneratorFailed(message) => Turn(Stop(Panicked(message)), db)
        case Minted(token) =>
          var db1 := Interleave(db, rd.rivals);
          match Insert(db1, TokenRecord(s, token), rd.insertFault)
          case Success(db2) => Turn(Stop(Returned(token, Some(Db(err)))), db2)
          case Failure(insertErr) =>
            if IsDuplicateKey(insertErr) then Turn(Again, db1)
            else Turn(Stop(Returned("", Some(Db(err)))), db1)
  }

  /** `rec` is one of the documents other writers try to insert in some round. */
  predicate FromRival(rounds: seq<Round>, rec: TokenRecord) {
    exists k :: 0 <= k < |rounds| && rec in rounds[k].rivals
  }

  /** Some round's generator fails with `message`. */
  predicate GeneratorFailsWith(rounds: seq<Round>, message: string) {
    exists k :: 0 <= k < |rounds| && rounds[k].draw == GeneratorFailed(message)
  }

  /** Some round's lookup fails with `e`. */
  predicate LookupFailsWith(rounds: seq<Round>, e: DbError) {
    exists k :: 0 <= k < |rounds| && rounds[k].lookupFault == Some(e)
  }

  /** `Tokenize`: the token for original `s`, minting and storing one if there is
      none yet. Each iteration consumes one round of the script. */
  function Tokenize(db: Collection, s: string, rounds: seq<Round>): (r: Run)
    // the collection only grows: stored documents are never changed or removed
    ensures |db| <= |r.db| && r.db[..|db|] == db
    // both unique indexes are kept
    ensures Valid(db) ==> Valid(r.db)
    // a token handed out is stored against `s`
    ensures r.outcome.Issued() ==> TokenRecord(s, r.outcome.value) in r.db
    decreases |rounds|
  {
    if |rounds| == 0 then Run(Exhausted, db)
    else
      var turn := Step(db, s, rounds[0]);
      match turn.next
      case Stop(outcome) =>
        Run(outcome, turn.db)
      case Again =>
        var r := Tokenize(turn.db, s, rounds[1..]);
        assert r.db[..|turn.db|][..|db|] == r.db[..|db|];
        r
  }

  /** What a call writes: every document it adds is another writer's, except at
      most one, the last, which is ours and whose token is handed out with the
      lookup's NotFound. */
  lemma {:induction false} TokenizeWrites(db: Collection, s: string, rounds: seq<Round>)
    ensures var r := Tokenize(db, s, rounds);
            forall i :: |db| <= i < |r.db| ==>
              FromRival(rounds, r.db[i]) ||
              (i == |r.db| - 1 && r.db[i].text == s && |r.db[i].token| > 0 &&
               r.outcome == Returned(r.db[i].token, Some(Db(NotFound))))
    decreases |rounds|
  {
    if |rounds| > 0 {
      var turn := Step(db, s, rounds[0]);
      var db1 := Interleave(db, rounds[0].rivals);
      var r := Tokenize(db, s, rounds);
      if turn.next.Again? {
        TokenizeWrites(turn.db, s, rounds[1..]);
        assert r == Tokenize(db1, s, rounds[1..]);
        assert r.db[..|db1|] == db1;
        forall i | |db| <= i < |db1|
          ensures FromRival(rounds, r.db[i])
        {
          assert r.db[i] == db1[i];
          assert db1[i] in rounds[0].rivals;
        }
        forall i | |db1| <= i < |r.db| && FromRival(rounds[1..], r.db[i])
          ensures FromRival(rounds, r.db[i])
        {
          var k :| 0 <= k < |rounds[1..]| && r.db[i] in rounds[1..][k].rivals;
          assert rounds[1..][k] == rounds[k + 1];
        }
      } else if r.db != db {
        assert r == Run(turn.next.outcome, turn.db);
        assert r.db == db1 || r.db == db1 + [r.db[|r.db| - 1]];
        assert r.db[..|db1|] == db1;
        forall i | |db| <= i < |db1|
          ensures FromRival(rounds, r.db[i])
        {
          assert r.db[i] == db1[i];
          assert db1[i] in rounds[0].rivals;
        }
      }
    }
  }

  /** What a call reports: an error is some lookup's error or the shadowed
      NotFound, and a token comes with an error only as NotFound. */
  lemma {:induction false} TokenizeReports(db: Collection, s: string, rounds: seq<Round>)
    ensures var r := Tokenize(db, s, rounds);
            r.outcome.Returned? && r.outcome.err.Some? ==>
              r.outcome.err.value.Db? &&
              (r.outcome.err.value.cause == NotFound || LookupFailsWith(rounds, r.outcome.err.value.cause))
    ensures var r := Tokenize(db, s, rounds);
            r.outcome.Returned? && r.outcome.err.Some? && |r.outcome.value| > 0 ==>
              r.outcome.err == Some(Db(NotFound))
    decreases |rounds|
  {
    if |rounds| > 0 {
      var turn := Step(db, s, rounds[0]);
      if turn.next.Again? {
        TokenizeReports(turn.db, s, rounds[1..]);
        var r := Tokenize(turn.db, s, rounds[1..]);
        if r.outcome.Returned? && r.outcome.err.Some? && LookupFailsWith(rounds[1..], r.outcome.err.value.cause) {
          var k :| 0 <= k < |rounds[1..]| && rounds[1..][k].lookupFault == Some(r.outcome.err.value.cause);
          assert rounds[k + 1] == rounds[1..][k];
        }
      }
    }
  }

  /** The only panic is the generator's: it carries the message of some failing
      generator call. */
  lemma {:induction false} TokenizePanics(db: Collection, s: string, rounds: seq<Round>)
    ensures var r := Tokenize(db, s, rounds);
            r.outcome.Panicked? ==> GeneratorFailsWith(rounds, r.outcome.message)
    decreases |rounds|
  {
    if |rounds| > 0 {
      var turn := Step(db, s, rounds[0]);
      if turn.next.Again? {
        TokenizePanics(turn.db, s, rounds[1..]);
        var r := Tokenize(turn.db, s, rounds[1..]);
        if r.outcome.Panicked? {
          var k :| 0 <= k < |rounds[1..]| && rounds[1..][k].draw == GeneratorFailed(r.outcome.message);
          assert rounds[k + 1] == rounds[1..][k];
        }
      }
    }
  }

  /** `Detokenize`: the original stored for token `t`. A lookup that fails with
      anything but `NotFound` panics, and the message is formatted from the
      function's own `err`, still nil at that point: the driver's error is lost. */
  function Detokenize(db: Collection, t: string, fault: Option<DbError>): (r: Outcome)
    // a returned original is stored against `t`
    ensures r.Succeeded() ==> TokenRecord(r.value, t) in db
    // under the unique indexes, the original of the one document holding `t`
    ensures fault.None? && Valid(db) ==>
              forall rec :: rec in db && rec.token == t ==> r == Returned(rec.text, None)
    // an unknown token: "" and TokenNotFound
    ensures fault.None? ==>
              (r == Returned("", Some(TokenNotFound)) <==> forall rec :: rec in db ==> rec.token != t)
    ensures fault == Some(NotFound) ==> r == Returned("", Some(TokenNotFound))
    // any other driver failure: a panic whose message is that of a nil error
    ensures r.Panicked? <==> fault.Some? && fault.value != NotFound
    ensures r.Panicked? ==> r.message == NilErrorText
    ensures !r.Exhausted? && (r.Returned? ==> r.Succeeded() || r.err == Some(TokenNotFound))
  {
    OnlyMatch(db, ByToken(t));
    match FindOne(db, ByToken(t), fault)
    case Failure(dbErr) =>
      if dbErr == NotFound then Returned("", Some(TokenNotFound))
      else Panicked(NilErrorText)
    case Success(rec) => Returned(rec.text, None)
  }
}
