/** Properties of the protocol that relate several calls, or one call under a
    particular behaviour of the outside world. */
module TokenizerProperties {
  import opened Wrappers
  import opened TokenStore
  import opened Tokenizer

  /** A clean first lookup that finds `s` returns its token with a nil error and
      writes nothing. */
  lemma FoundTokenReturned(db: Collection, s: string, rounds: seq<Round>)
    requires Valid(db) && |rounds| > 0 && rounds[0].lookupFault.None?
    ensures forall rec :: rec in db && rec.text == s ==>
              Tokenize(db, s, rounds) == Run(Returned(rec.token, None), db)
  {
  }

  /** A first lookup failing otherwise than NotFound is returned at once, with "",
      and nothing is written. */
  lemma LookupErrorReturned(db: Collection, s: string, rounds: seq<Round>)
    requires |rounds| > 0 && rounds[0].lookupFault.Some? && rounds[0].lookupFault.value != NotFound
    ensures Tokenize(db, s, rounds) == Run(Returned("", Some(Db(rounds[0].lookupFault.value))), db)
  {
  }

  /** A clean first miss followed by a failing generator panics with the
      generator's message, before anything is written. */
  lemma GeneratorFailurePanics(db: Collection, s: string, rounds: seq<Round>)
    requires |rounds| > 0 && rounds[0].lookupFault.None? && Unknown(db, s)
    requires rounds[0].draw.GeneratorFailed?
    ensures Tokenize(db, s, rounds) == Run(Panicked(rounds[0].draw.message), db)
  {
  }

  /** Round trip: a token `Tokenize(s)` hands out -- found, with a nil error, or
      freshly stored, with NotFound -- detokenizes to `s` on the collection it
      leaves behind. */
  lemma RoundTrip(db: Collection, s: string, rounds: seq<Round>)
    requires Valid(db)
    ensures var r := Tokenize(db, s, rounds);
            r.outcome.Issued() ==> Detokenize(r.db, r.outcome.value, None) == Returned(s, None)
  {
  }

  /** Idempotence: once `Tokenize(s)` has handed out a token, a later call whose
      first lookup is answered returns the same token, now with a nil error, and
      writes nothing. */
  lemma Idempotent(db: Collection, s: string, first: seq<Round>, second: seq<Round>)
    requires Valid(db)
    requires |second| > 0 && second[0].lookupFault.None?
    ensures var r1 := Tokenize(db, s, first);
            r1.outcome.Issued() ==>
              Tokenize(r1.db, s, second) == Run(Returned(r1.outcome.value, None), r1.db)
  {
  }

  /** Injectivity: two different originals tokenized one after the other get
      different tokens, because the token index refuses a second use of a token. */
  lemma DistinctTokens(db: Collection, x: string, y: string, first: seq<Round>, second: seq<Round>)
    requires Valid(db) && x != y
    ensures var r1 := Tokenize(db, x, first);
            var r2 := Tokenize(r1.db, y, second);
            r1.outcome.Issued() && r2.outcome.Issued() ==> r1.outcome.value != r2.outcome.value
  {
  }

  /** A fresh candidate, nobody else writing and no failure: exactly one document,
      `{s, candidate}`, is added, and the candidate is returned together with the
      lookup's NotFound, which the shadowed `err` leaves in place. */
  lemma FreshCandidateStored(db: Collection, s: string, c: Token, rest: seq<Round>)
    requires Valid(db) && Unknown(db, s)
    requires forall rec :: rec in db ==> rec.token != c
    ensures Tokenize(db, s, [Round(None, Minted(c), [], None)] + rest)
            == Run(Returned(c, Some(Db(NotFound))), db + [TokenRecord(s, c)])
  {
    var rounds := [Round(None, Minted(c), [], None)] + rest;
    assert rounds[0] == Round(None, Minted(c), [], None);
    assert Interleave(db, []) == db;
    assert !Clashes(db, TokenRecord(s, c));
  }

  /** A duplicate-key insert is never reported, whether a unique index refused our
      document or the driver reported the duplicate: it writes nothing of ours and
      the loop starts again from the lookup with the next round. */
  lemma DuplicateKeyRetries(db: Collection, s: string, rounds: seq<Round>)
    requires |rounds| > 0
    requires rounds[0].lookupFault.None? && Unknown(db, s) && rounds[0].draw.Minted?
    requires var ins := Insert(Interleave(db, rounds[0].rivals), TokenRecord(s, rounds[0].draw.token),
                               rounds[0].insertFault);
             ins.Failure? && IsDuplicateKey(ins.error)
    ensures Tokenize(db, s, rounds) == Tokenize(Interleave(db, rounds[0].rivals), s, rounds[1..])
  {
  }

  /** A candidate that collides with a token already stored makes the insert fail on
      the token index; the collision is absorbed by retrying with the next candidate. */
  lemma CollisionRetries(db: Collection, s: string, c: Token, rest: seq<Round>)
    requires Valid(db) && Unknown(db, s)
    requires exists rec :: rec in db && rec.token == c
    ensures Tokenize(db, s, [Round(None, Minted(c), [], None)] + rest) == Tokenize(db, s, rest)
  {
  }

  /** Race convergence: another caller stores `{s, t}` between our lookup and our
      insert. Our insert then hits the original's index, the retry finds the other
      caller's token, both callers end up with `t`, and only one document for `s`
      exists. */
  lemma RaceConverges(db: Collection, s: string, c: Token, t: string, second: Round, rest: seq<Round>)
    requires Valid(db) && Unknown(db, s)
    requires forall rec :: rec in db ==> rec.token != t
    requires second.lookupFault.None?
    ensures var r := Tokenize(db, s, [Round(None, Minted(c), [TokenRecord(s, t)], None), second] + rest);
            r == Run(Returned(t, None), db + [TokenRecord(s, t)])
  {
    var theirs := TokenRecord(s, t);
    var rounds := [Round(None, Minted(c), [theirs], None), second] + rest;
    assert rounds[0] == Round(None, Minted(c), [theirs], None);
    assert rounds[1..][0] == second;
    assert !Clashes(db, theirs);
    assert Insert(db, theirs, None) == Success(db + [theirs]);
    assert [theirs][1..] == [];
    assert Interleave(db + [theirs], []) == db + [theirs];
    var db1 := Interleave(db, [theirs]);
    assert db1 == db + [theirs];
    assert Clashes(db1, TokenRecord(s, c)) by {
      assert db1[|db|] == theirs;
    }
    assert theirs in db1;
  }

  /** The shadowed error: after a miss, an insert failing with anything but a
      duplicate key makes `Tokenize` return "" with the lookup's NotFound; the
      insert's own error never reaches the caller. */
  lemma InsertErrorIsLost(db: Collection, s: string, rounds: seq<Round>)
    requires |rounds| > 0
    requires rounds[0].lookupFault.None? && Unknown(db, s) && rounds[0].draw.Minted?
    requires rounds[0].insertFault.Some? && !IsDuplicateKey(rounds[0].insertFault.value)
    ensures Tokenize(db, s, rounds) == Run(Returned("", Some(Db(NotFound))), Interleave(db, rounds[0].rivals))
  {
  }

  /** A concrete instance of the shadowed error: the insert loses its connection,
      and the caller is told the original was not found. */
  lemma InsertErrorIsLostExample()
    ensures Tokenize([], "4111-1111", [Round(None, Minted("MTIzNA=="), [], Some(Transport("connection reset")))])
            == Run(Returned("", Some(Db(NotFound))), [])
  {
  }

  /** A concrete instance of a fresh token: the first call for "x" stores
      `{x, "Yw=="}` and answers `("Yw==", NotFound)`. */
  lemma FreshTokenExample()
    ensures Tokenize([], "x", [Round(None, Minted("Yw=="), [], None)])
            == Run(Returned("Yw==", Some(Db(NotFound))), [TokenRecord("x", "Yw==")])
  {
  }
}
