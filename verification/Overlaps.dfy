/**
  Two operations on one key whose writes overlap, in any order, with the profile created again in
  between or not: what the two tables hold at the end.

  Whether they agree depends on a handful of facts about the key, so a run of writes is followed on
  those facts alone; that it may be is the first theorem here, and the pairs follow from it.
*/
module Overlaps {
  import opened Options
  import opened Vault

  /** Whose write is next, or that somebody creates the key's profile anew. */
  datatype Turn = First | Second | Recreate

  type Sides = (Option<Op>, Option<Op>)

  /** One write of one side, if it has any left. */
  function TakeTurn(cfg: Settings, t: Tables, place: Place, sides: Sides, turn: Turn): (Tables, Sides) {
    match turn
    case First =>
      if sides.0.None? then (t, sides)
      else var (t', rest) := Write(cfg, t, sides.0.value); (t', (rest, sides.1))
    case Second =>
      if sides.1.None? then (t, sides)
      else var (t', rest) := Write(cfg, t, sides.1.value); (t', (sides.0, rest))
    case Recreate => (if place.account in t.accounts then t.(profiles := t.profiles + {place}) else t, sides)
  }

  function Interleaved(cfg: Settings, t: Tables, place: Place, sides: Sides, turns: seq<Turn>): (Tables, Sides)
    decreases |turns|
  {
    if turns == [] then (t, sides)
    else
      var (t', sides') := TakeTurn(cfg, t, place, sides, turns[0]);
      Interleaved(cfg, t', place, sides', turns[1..])
  }

  // ---------------------------------------------------------------- the facts that matter

  datatype Stage = Put | Land | Fail | Wait | Erase | Unlink | Drop | Clear | Over

  function StageOf(op: Option<Op>): Stage {
    match op
    case None => Over
    case Some(Storing(_, _, _)) => Put
    case Some(Landing(_, _)) => Land
    case Some(Marking(_, c)) => if c.status.Pending? then Wait else Fail
    case Some(Revoking(_)) => Erase
    case Some(Unlinking(_)) => Unlink
    case Some(Dropping(_)) => Drop
    case Some(Clearing(_)) => Clear
  }

  /**
    Of one key: whether its profile is there, whether another connection would fit beside the others,
    whether its own is there and completed, and whether its secret is; and whether one would fit in an
    empty profile.
  */
  datatype Facts = Facts(profile: bool, room: bool, connection: bool, completed: bool, secret: bool, roomy: bool)

  function Fitted(f: Facts): bool { f.profile && (f.connection || f.room) }

  function Acted(f: Facts, s: Stage): (Facts, Stage) {
    match s
    case Put => if Fitted(f) then (f.(connection := true, completed := true), Land) else (f, Over)
    case Land => (f.(secret := true), Over)
    case Fail => (if Fitted(f) then f.(connection := true, completed := true) else f, Over)
    case Wait => (if Fitted(f) then f.(connection := true, completed := false) else f, Over)
    case Erase => (f.(secret := false), Unlink)
    case Unlink => (f.(connection := false, completed := false), Over)
    case Drop =>
      if f.profile then (f.(profile := false, room := f.roomy, connection := false, completed := false), Clear)
          else (f, Over)
    case Clear => (f.(secret := false), Over)
    case Over => (f, Over)
  }

  datatype Course = Course(facts: Facts, first: Stage, second: Stage)

  function Moved(c: Course, turn: Turn): Course {
    match turn
    case First => Course(Acted(c.facts, c.first).0, Acted(c.facts, c.first).1, c.second)
    case Second => Course(Acted(c.facts, c.second).0, c.first, Acted(c.facts, c.second).1)
    case Recreate => c.(facts := c.facts.(profile := true))
  }

  function Foretold(c: Course, turns: seq<Turn>): Course
    decreases |turns|
  {
    if turns == [] then c else Foretold(Moved(c, turns[0]), turns[1..])
  }

  function Others(t: Tables, key: Key): set<Key> { At(t, key.place) - {key} }

  predicate Shows(cfg: Settings, t: Tables, key: Key, f: Facts) {
    RowsShow(cfg, t, key, f) && (f.room <==> |Others(t, key)| < cfg.maxConnections)
  }

  predicate RowsShow(cfg: Settings, t: Tables, key: Key, f: Facts) {
    && key.place.account in t.accounts
    && (f.profile <==> key.place in t.profiles)
    && (f.connection <==> key in t.connections)
    && (f.completed <==> key in t.connections && !t.connections[key].status.Pending?)
    && (f.secret <==> key in t.vault)
    && (f.roomy <==> cfg.maxConnections > 0)
  }

  function FactsOf(cfg: Settings, t: Tables, key: Key): Facts {
    Facts(key.place in t.profiles, |Others(t, key)| < cfg.maxConnections, key in t.connections,
          key in t.connections && !t.connections[key].status.Pending?, key in t.vault, cfg.maxConnections > 0)
  }

  /** A store completes its connection. */
  predicate Proper(op: Op, key: Key) { Covers(op, key) && (op.Storing? ==> !op.connection.status.Pending?) }

  predicate BothProper(sides: Sides, key: Key) {
    (sides.0.Some? ==> Proper(sides.0.value, key)) && (sides.1.Some? ==> Proper(sides.1.value, key))
  }

  // ---------------------------------------------------------------- following the facts

  lemma PutFits(cfg: Settings, t: Tables, key: Key, c: Connection)
    ensures PutConnection(cfg, t, key, c).Some?
      <==> key.place in t.profiles && (key in t.connections || |Others(t, key)| < cfg.maxConnections)
    ensures PutConnection(cfg, t, key, c).Some? ==> Others(PutConnection(cfg, t, key, c).value, key) == Others(t, key)
  {
    if key !in t.connections {
      assert Others(t, key) == At(t, key.place);
    }
  }

  /** What a write leaves of the profile's other connections: all of them, or none when it deletes the profile. */
  lemma OthersAfter(cfg: Settings, t: Tables, key: Key, op: Op)
    requires Covers(op, key)
    ensures Others(Write(cfg, t, op).0, key) == if op.Dropping? && key.place in t.profiles then {} else Others(t, key)
  {
  }

  predicate RowsActed(cfg: Settings, t: Tables, key: Key, op: Op, f: Facts) {
    var (t', rest) := Write(cfg, t, op);
    && RowsShow(cfg, t', key, Acted(f, StageOf(Some(op))).0)
    && StageOf(rest) == Acted(f, StageOf(Some(op))).1
    && (rest.Some? ==> Proper(rest.value, key))
  }

  lemma PuttingActs(cfg: Settings, t: Tables, key: Key, op: Op, f: Facts)
    requires RowsShow(cfg, t, key, f) && Proper(op, key) && (op.Storing? || op.Marking?)
    requires Fitted(f) <==> PutConnection(cfg, t, key, op.connection).Some?
    ensures RowsActed(cfg, t, key, op, f)
  {
  }

  lemma OtherwiseActs(cfg: Settings, t: Tables, key: Key, op: Op, f: Facts)
    requires RowsShow(cfg, t, key, f) && Proper(op, key) && !op.Storing? && !op.Marking?
    ensures RowsActed(cfg, t, key, op, f)
  {
  }

  lemma FitsAsPut(cfg: Settings, t: Tables, key: Key, c: Connection, f: Facts)
    requires Shows(cfg, t, key, f)
    ensures Fitted(f) <==> PutConnection(cfg, t, key, c).Some?
  {
    PutFits(cfg, t, key, c);
  }

  lemma RoomAfter(cfg: Settings, t: Tables, t': Tables, key: Key, f: Facts, s: Stage)
    requires Shows(cfg, t, key, f) && RowsShow(cfg, t', key, Acted(f, s).0)
    requires Others(t', key) == if s.Drop? && f.profile then {} else Others(t, key)
    ensures Shows(cfg, t', key, Acted(f, s).0)
  {
  }

  lemma WriteActs(cfg: Settings, t: Tables, key: Key, op: Op, f: Facts)
    requires Shows(cfg, t, key, f) && Proper(op, key)
    ensures RowsActed(cfg, t, key, op, f) && Shows(cfg, Write(cfg, t, op).0, key, Acted(f, StageOf(Some(op))).0)
  {
    OwnRowsAct(cfg, t, key, op, f);
    OthersAfter(cfg, t, key, op);
    RoomAfter(cfg, t, Write(cfg, t, op).0, key, f, StageOf(Some(op)));
  }

  lemma OwnRowsAct(cfg: Settings, t: Tables, key: Key, op: Op, f: Facts)
    requires Shows(cfg, t, key, f) && Proper(op, key)
    ensures RowsActed(cfg, t, key, op, f)
  {
    if op.Storing? || op.Marking? {
      FitsAsPut(cfg, t, key, op.connection, f);
      PuttingActs(cfg, t, key, op, f);
    } else {
      OtherwiseActs(cfg, t, key, op, f);
    }
  }

  lemma TurnMoves(cfg: Settings, t: Tables, key: Key, sides: Sides, f: Facts, turn: Turn)
    requires Shows(cfg, t, key, f) && BothProper(sides, key)
    ensures var (t', sides') := TakeTurn(cfg, t, key.place, sides, turn);
            var c := Moved(Course(f, StageOf(sides.0), StageOf(sides.1)), turn);
            && Shows(cfg, t', key, c.facts) && BothProper(sides', key)
            && StageOf(sides'.0) == c.first && StageOf(sides'.1) == c.second
  {
    match turn
    case First =>
      if sides.0.Some? {
        WriteActs(cfg, t, key, sides.0.value, f);
      }
    case Second =>
      if sides.1.Some? {
        WriteActs(cfg, t, key, sides.1.value, f);
      }
    case Recreate =>
      assert Others(t.(profiles := t.profiles + {key.place}), key) == Others(t, key);
  }

  /**
    Any two operations on a key, in any order of their writes, and any number of new profiles in
    between: the facts about the key at the end, and what is left to write, are those foretold.
  */
  lemma {:induction false} EndsAsForetold(cfg: Settings, t: Tables, key: Key, sides: Sides, f: Facts, turns: seq<Turn>)
    requires Shows(cfg, t, key, f) && BothProper(sides, key)
    ensures var (t', left) := Interleaved(cfg, t, key.place, sides, turns);
            var end := Foretold(Course(f, StageOf(sides.0), StageOf(sides.1)), turns);
            && Shows(cfg, t', key, end.facts) && StageOf(left.0) == end.first && StageOf(left.1) == end.second
    decreases |turns|
  {
    if turns == [] {
    } else {
      TurnMoves(cfg, t, key, sides, f, turns[0]);
      var (t', sides') := TakeTurn(cfg, t, key.place, sides, turns[0]);
      EndsAsForetold(cfg, t', key, sides', Moved(Course(f, StageOf(sides.0), StageOf(sides.1)), turns[0]).facts,
                     turns[1..]);
    }
  }

  predicate FactsAgree(f: Facts) { (f.secret ==> f.connection) && (f.completed ==> f.secret) }

  /** So two operations leave the tables agreeing exactly when the foretold facts agree. */
  lemma AnyTwoAgreeIff(cfg: Settings, t: Tables, key: Key, one: Op, two: Op, turns: seq<Turn>)
    requires key.place.account in t.accounts && Proper(one, key) && Proper(two, key)
    ensures var (t', left) := Interleaved(cfg, t, key.place, (Some(one), Some(two)), turns);
            var end := Foretold(Course(FactsOf(cfg, t, key), StageOf(Some(one)), StageOf(Some(two))), turns);
            && Shows(cfg, t', key, end.facts)
            && (Agrees(t', key) <==> FactsAgree(end.facts))
            && (left == (None, None) <==> end.first.Over? && end.second.Over?)
  {
    EndsAsForetold(cfg, t, key, (Some(one), Some(two)), FactsOf(cfg, t, key), turns);
  }

  lemma FitsNow(cfg: Settings, t: Tables, key: Key, c: Connection)
    requires PutConnection(cfg, t, key, c).Some?
    ensures Fitted(FactsOf(cfg, t, key)) && (Agrees(t, key) <==> FactsAgree(FactsOf(cfg, t, key)))
  {
    PutFits(cfg, t, key, c);
  }

  // ---------------------------------------------------------------- orders

  lemma ForetoldOne(c: Course, turn: Turn, rest: seq<Turn>)
    ensures Foretold(c, [turn] + rest) == Foretold(Moved(c, turn), rest)
  {
    assert ([turn] + rest)[1..] == rest;
  }

  function Three(c: Course, x: Turn, y: Turn, z: Turn): Course { Moved(Moved(Moved(c, x), y), z) }

  lemma ForetoldThree(c: Course, x: Turn, y: Turn, z: Turn)
    ensures Foretold(c, [x, y, z]) == Three(c, x, y, z)
  {
    assert [x, y, z] == [x] + [y, z] && [y, z] == [y] + [z] && [z] == [z] + [];
    ForetoldOne(c, x, [y, z]);
    ForetoldOne(Moved(c, x), y, [z]);
    ForetoldOne(Moved(Moved(c, x), y), z, []);
  }

  lemma ForetoldFour(c: Course, w: Turn, x: Turn, y: Turn, z: Turn)
    ensures Foretold(c, [w, x, y, z]) == Three(Moved(c, w), x, y, z)
  {
    assert [w, x, y, z] == [w] + [x, y, z];
    ForetoldOne(c, w, [x, y, z]);
    ForetoldThree(Moved(c, w), x, y, z);
  }

  lemma ForetoldFive(c: Course, v: Turn, w: Turn, x: Turn, y: Turn, z: Turn)
    ensures Foretold(c, [v, w, x, y, z]) == Three(Moved(Moved(c, v), w), x, y, z)
  {
    assert [v, w, x, y, z] == [v] + [w, x, y, z];
    ForetoldOne(c, v, [w, x, y, z]);
    ForetoldFour(Moved(c, v), w, x, y, z);
  }

  /** Two turns of each side. */
  predicate TwoEach(w: Turn, x: Turn, y: Turn, z: Turn) {
    (w, x, y, z) in {(First, First, Second, Second), (First, Second, First, Second), (First, Second, Second, First),
                     (Second, First, First, Second), (Second, First, Second, First), (Second, Second, First, First)}
  }

  /** One turn of the first side and two of the second. */
  predicate OneAndTwo(x: Turn, y: Turn, z: Turn) {
    (x, y, z) in {(First, Second, Second), (Second, First, Second), (Second, Second, First)}
  }

  predicate OneAfterTheOther(w: Turn, x: Turn, y: Turn, z: Turn) { w == x && y == z }

  /** Four turns, and the profile created anew after so many of them, or not at all. */
  function FourTurns(w: Turn, x: Turn, y: Turn, z: Turn, anew: Option<nat>): seq<Turn> {
    match anew
    case None => [w, x, y, z]
    case Some(after) =>
      if after == 0 then [Recreate, w, x, y, z] else if after == 1 then [w, Recreate, x, y, z]
      else if after == 2 then [w, x, Recreate, y, z] else if after == 3 then [w, x, y, Recreate, z]
      else [w, x, y, z, Recreate]
  }

  function ThreeTurns(x: Turn, y: Turn, z: Turn, anew: Option<nat>): seq<Turn> {
    match anew
    case None => [x, y, z]
    case Some(after) =>
      if after == 0 then [Recreate, x, y, z] else if after == 1 then [x, Recreate, y, z]
      else if after == 2 then [x, y, Recreate, z] else [x, y, z, Recreate]
  }

  /** Where four turns lead, step by step. */
  function Four(c: Course, w: Turn, x: Turn, y: Turn, z: Turn, anew: Option<nat>): Course {
    match anew
    case None => Three(Moved(c, w), x, y, z)
    case Some(after) =>
      if after == 0 then Three(Moved(Moved(c, Recreate), w), x, y, z)
      else if after == 1 then Three(Moved(Moved(c, w), Recreate), x, y, z)
      else if after == 2 then Three(Moved(Moved(c, w), x), Recreate, y, z)
      else if after == 3 then Three(Moved(Moved(c, w), x), y, Recreate, z)
      else Three(Moved(Moved(c, w), x), y, z, Recreate)
  }

  lemma ForetoldTurns(c: Course, w: Turn, x: Turn, y: Turn, z: Turn, anew: Option<nat>)
    ensures Foretold(c, FourTurns(w, x, y, z, anew)) == Four(c, w, x, y, z, anew)
  {
    if anew.None? {
      ForetoldFour(c, w, x, y, z);
    } else if anew.value == 0 {
      ForetoldFive(c, Recreate, w, x, y, z);
    } else if anew.value == 1 {
      ForetoldFive(c, w, Recreate, x, y, z);
    } else if anew.value == 2 {
      ForetoldFive(c, w, x, Recreate, y, z);
    } else if anew.value == 3 {
      ForetoldFive(c, w, x, y, Recreate, z);
    } else {
      ForetoldFive(c, w, x, y, z, Recreate);
    }
  }

  // ---------------------------------------------------------------- a store and a revocation

  predicate RevokeEnds(end: Course, w: Turn, x: Turn, y: Turn, z: Turn) {
    && end.first.Over? && end.second.Over?
    && (FactsAgree(end.facts) <==> OneAfterTheOther(w, x, y, z))
    && (!OneAfterTheOther(w, x, y, z) ==> end.facts.secret && !end.facts.connection)
  }

  lemma StoreStarts(f: Facts, x: Turn, y: Turn, z: Turn)
    requires TwoEach(First, x, y, z) && Fitted(f)
    ensures RevokeEnds(Three(Moved(Course(f, Put, Erase), First), x, y, z), First, x, y, z)
  {
  }

  lemma RevokeStarts(f: Facts, x: Turn, y: Turn, z: Turn)
    requires TwoEach(Second, x, y, z) && Fitted(f) && f.connection
    ensures RevokeEnds(Three(Moved(Course(f, Put, Erase), Second), x, y, z), Second, x, y, z)
  {
  }

  lemma StoreThroughRevoke(f: Facts, w: Turn, x: Turn, y: Turn, z: Turn)
    requires TwoEach(w, x, y, z) && Fitted(f) && (f.connection || w.First?)
    ensures RevokeEnds(Three(Moved(Course(f, Put, Erase), w), x, y, z), w, x, y, z)
  {
    if w.First? {
      StoreStarts(f, x, y, z);
    } else {
      RevokeStarts(f, x, y, z);
    }
  }

  /**
    One store and one revocation of the same key, in every order of their writes: the tables agree
    at the end exactly when one of the two is over before the other writes. The revocation had a
    connection to find: one that stood already, or the store's own.
  */
  lemma StoreAndRevokeAgreeIff(cfg: Settings, t: Tables, key: Key, c: Connection, secret: Secret, w: Turn, x: Turn,
                               y: Turn, z: Turn)
    requires TwoEach(w, x, y, z) && key.place.account in t.accounts && PutConnection(cfg, t, key, c).Some?
    requires !c.status.Pending?
    requires key in t.connections || w.First?
    ensures var (t', left) := Interleaved(cfg, t, key.place, (Some(Storing(key, c, secret)), Some(Revoking(key))),
                                          [w, x, y, z]);
            && left == (None, None)
            && (Agrees(t', key) <==> OneAfterTheOther(w, x, y, z))
            && (!OneAfterTheOther(w, x, y, z) ==> key in t'.vault && key !in t'.connections)
  {
    AnyTwoAgreeIff(cfg, t, key, Storing(key, c, secret), Revoking(key), [w, x, y, z]);
    PutFits(cfg, t, key, c);
    ForetoldFour(Course(FactsOf(cfg, t, key), Put, Erase), w, x, y, z);
    StoreThroughRevoke(FactsOf(cfg, t, key), w, x, y, z);
  }

  // ---------------------------------------------------------------- a failing renewal and a revocation

  lemma FailureThroughRevoke(f: Facts, x: Turn, y: Turn, z: Turn)
    requires OneAndTwo(x, y, z) && f.profile && f.completed && f.secret && f.connection
    ensures var end := Three(Course(f, Fail, Erase), x, y, z);
            && end.first.Over? && end.second.Over? && end.facts.profile
            && (FactsAgree(end.facts) <==> !z.First? || !f.room)
            && (!FactsAgree(end.facts) ==> end.facts.completed && !end.facts.secret)
  {
  }

  /**
    A renewal that fails while its connection is being revoked, in every order: the tables agree at
    the end exactly when the failure is recorded before the connection goes, or finds the profile
    full. Otherwise the connection is back, without its secret.
  */
  lemma FailureAndRevokeAgreeIff(cfg: Settings, t: Tables, key: Key, reason: string, now: int, x: Turn, y: Turn,
                                 z: Turn)
    requires OneAndTwo(x, y, z) && Load(cfg, t, key).Loaded? && key.place.account in t.accounts
    ensures var mark := Marking(key, WithError(t.connections[key], reason, now));
            var (t', left) := Interleaved(cfg, t, key.place, (Some(mark), Some(Revoking(key))), [x, y, z]);
            && left == (None, None)
            && (Agrees(t', key) <==> !z.First? || |At(t, key.place)| > cfg.maxConnections)
            && (!Agrees(t', key) ==> Load(cfg, t', key).MissingFromVault?)
  {
    AnyTwoAgreeIff(cfg, t, key, Marking(key, WithError(t.connections[key], reason, now)), Revoking(key), [x, y, z]);
    ForetoldThree(Course(FactsOf(cfg, t, key), Fail, Erase), x, y, z);
    FailureThroughRevoke(FactsOf(cfg, t, key), x, y, z);
    assert At(t, key.place) == Others(t, key) + {key};
  }

  // ---------------------------------------------------------------- a store and a deletion

  /** Between its two writes the deletion begins and ends. */
  predicate Straddles(w: Turn, x: Turn, y: Turn, z: Turn) { w.First? && z.First? }

  /** Inside the deletion, into the profile created anew. */
  predicate IntoTheNewProfile(w: Turn, z: Turn, anew: Option<nat>, roomy: bool) {
    w.Second? && z.Second? && anew == Some(1) && roomy
  }

  predicate StoreEnds(end: Course, w: Turn, x: Turn, y: Turn, z: Turn, anew: Option<nat>, roomy: bool) {
    && end.first.Over? && end.second.Over?
    && (FactsAgree(end.facts) <==> !Straddles(w, x, y, z) && !IntoTheNewProfile(w, z, anew, roomy))
    && (Straddles(w, x, y, z) ==> end.facts.secret && !end.facts.connection)
    && (IntoTheNewProfile(w, z, anew, roomy) ==> end.facts.connection && !end.facts.secret)
  }

  /** Wherever the profile is created anew; `late` is any number of turns past the third. */
  predicate StoreEndsEverywhere(f: Facts, w: Turn, x: Turn, y: Turn, z: Turn, late: nat) {
    var c := Course(f, Put, Drop);
    && StoreEnds(Three(Moved(c, w), x, y, z), w, x, y, z, None, f.roomy)
    && StoreEnds(Three(Moved(Moved(c, Recreate), w), x, y, z), w, x, y, z, Some(0), f.roomy)
    && StoreEnds(Three(Moved(Moved(c, w), Recreate), x, y, z), w, x, y, z, Some(1), f.roomy)
    && StoreEnds(Three(Moved(Moved(c, w), x), Recreate, y, z), w, x, y, z, Some(2), f.roomy)
    && StoreEnds(Three(Moved(Moved(c, w), x), y, Recreate, z), w, x, y, z, Some(3), f.roomy)
    && (late > 3 ==> StoreEnds(Three(Moved(Moved(c, w), x), y, z, Recreate), w, x, y, z, Some(late), f.roomy))
  }

  lemma StoreThenDelete(f: Facts, late: nat)
    requires Fitted(f) && FactsAgree(f)
    ensures StoreEndsEverywhere(f, First, First, Second, Second, late)
  {
  }

  lemma StoreAndDeleteInStep(f: Facts, late: nat)
    requires Fitted(f) && FactsAgree(f)
    ensures StoreEndsEverywhere(f, First, Second, First, Second, late)
  {
  }

  lemma DeleteInsideStore(f: Facts, late: nat)
    requires Fitted(f) && FactsAgree(f)
    ensures StoreEndsEverywhere(f, First, Second, Second, First, late)
  {
  }

  lemma StoreInsideDelete(f: Facts, late: nat)
    requires Fitted(f) && FactsAgree(f)
    ensures StoreEndsEverywhere(f, Second, First, First, Second, late)
  {
  }

  lemma DeleteAndStoreInStep(f: Facts, late: nat)
    requires Fitted(f) && FactsAgree(f)
    ensures StoreEndsEverywhere(f, Second, First, Second, First, late)
  {
  }

  lemma DeleteThenStore(f: Facts, late: nat)
    requires Fitted(f) && FactsAgree(f)
    ensures StoreEndsEverywhere(f, Second, Second, First, First, late)
  {
  }

  lemma StoreEndsInEachOrder(f: Facts, w: Turn, x: Turn, y: Turn, z: Turn, late: nat)
    requires TwoEach(w, x, y, z) && Fitted(f) && FactsAgree(f)
    ensures StoreEndsEverywhere(f, w, x, y, z, late)
  {
    match (w, x, y) {
      case (First, First, _) => StoreThenDelete(f, late);
      case (First, Second, First) => StoreAndDeleteInStep(f, late);
      case (First, Second, Second) => DeleteInsideStore(f, late);
      case (Second, First, First) => StoreInsideDelete(f, late);
      case (Second, First, Second) => DeleteAndStoreInStep(f, late);
      case (Second, Second, _) => DeleteThenStore(f, late);
    }
  }

  lemma StoreInFourTurns(f: Facts, w: Turn, x: Turn, y: Turn, z: Turn, anew: Option<nat>)
    requires TwoEach(w, x, y, z) && Fitted(f) && FactsAgree(f)
    ensures StoreEnds(Foretold(Course(f, Put, Drop), FourTurns(w, x, y, z, anew)), w, x, y, z, anew, f.roomy)
  {
    ForetoldTurns(Course(f, Put, Drop), w, x, y, z, anew);
    StoreEndsInEachOrder(f, w, x, y, z, if anew.Some? then anew.value else 0);
  }

  predicate StoreLeaves(t: Tables, key: Key, w: Turn, x: Turn, y: Turn, z: Turn, anew: Option<nat>, roomy: bool) {
    && (Agrees(t, key) <==> !Straddles(w, x, y, z) && !IntoTheNewProfile(w, z, anew, roomy))
    && (Straddles(w, x, y, z) ==> key in t.vault && key !in t.connections)
    && (IntoTheNewProfile(w, z, anew, roomy) ==> key in t.connections && key !in t.vault)
  }

  lemma StoreConcludes(cfg: Settings, t: Tables, key: Key, c: Connection, secret: Secret, turns: seq<Turn>,
                       w: Turn, x: Turn, y: Turn, z: Turn, anew: Option<nat>)
    requires key.place.account in t.accounts && !c.status.Pending?
    requires StoreEnds(Foretold(Course(FactsOf(cfg, t, key), Put, Drop), turns), w, x, y, z, anew,
                       cfg.maxConnections > 0)
    ensures var sides := (Some(Storing(key, c, secret)), Some(Dropping(key.place)));
            var (t', left) := Interleaved(cfg, t, key.place, sides, turns);
            left == (None, None) && StoreLeaves(t', key, w, x, y, z, anew, cfg.maxConnections > 0)
  {
    AnyTwoAgreeIff(cfg, t, key, Storing(key, c, secret), Dropping(key.place), turns);
  }

  /**
    One store and one deletion of its profile, in every order of their writes, and the profile
    created again at any moment or not at all. They disagree at the end exactly when the deletion
    runs whole between the store's two writes, which leaves a secret with no connection; or when the
    store runs whole inside the deletion, into the profile created anew, which loses its secret.
  */
  lemma StoreAndDeleteAgreeIff(cfg: Settings, t: Tables, key: Key, c: Connection, secret: Secret,
                               w: Turn, x: Turn, y: Turn, z: Turn, anew: Option<nat>)
    requires TwoEach(w, x, y, z) && Agrees(t, key)
    requires key.place.account in t.accounts && PutConnection(cfg, t, key, c).Some? && !c.status.Pending?
    ensures var sides := (Some(Storing(key, c, secret)), Some(Dropping(key.place)));
            var (t', left) := Interleaved(cfg, t, key.place, sides, FourTurns(w, x, y, z, anew));
            left == (None, None) && StoreLeaves(t', key, w, x, y, z, anew, cfg.maxConnections > 0)
  {
    FitsNow(cfg, t, key, c);
    StoreInFourTurns(FactsOf(cfg, t, key), w, x, y, z, anew);
    StoreConcludes(cfg, t, key, c, secret, FourTurns(w, x, y, z, anew), w, x, y, z, anew);
  }

  // ---------------------------------------------------------------- a failing renewal and a deletion

  /** The failure is recorded after the profile was deleted and created anew. */
  predicate FailsInTheNewProfile(x: Turn, y: Turn, z: Turn, anew: Option<nat>) {
    x.Second? && anew in {Some(1), Some(2)} && (y.First? ==> anew == Some(1))
  }

  predicate FailureEnds(end: Course, x: Turn, y: Turn, z: Turn, anew: Option<nat>, roomy: bool) {
    && end.first.Over? && end.second.Over?
    && (FactsAgree(end.facts) <==> !(FailsInTheNewProfile(x, y, z, anew) && roomy))
    && (!FactsAgree(end.facts) ==>
          end.facts.profile && end.facts.completed && end.facts.connection && !end.facts.secret)
  }

  lemma FailureThroughDelete(f: Facts, x: Turn, y: Turn, z: Turn)
    requires OneAndTwo(x, y, z) && f.profile && f.connection && f.completed && f.secret
    ensures FailureEnds(Three(Course(f, Fail, Drop), x, y, z), x, y, z, None, f.roomy)
    ensures FailureEnds(Three(Moved(Course(f, Fail, Drop), Recreate), x, y, z), x, y, z, Some(0), f.roomy)
    ensures FailureEnds(Three(Moved(Course(f, Fail, Drop), x), Recreate, y, z), x, y, z, Some(1), f.roomy)
  {
  }

  lemma FailureAnewLate(f: Facts, x: Turn, y: Turn, z: Turn, after: nat)
    requires OneAndTwo(x, y, z) && f.profile && f.connection && f.completed && f.secret
    ensures FailureEnds(Three(Moved(Course(f, Fail, Drop), x), y, Recreate, z), x, y, z, Some(2), f.roomy)
    ensures after > 2 ==> FailureEnds(Three(Moved(Course(f, Fail, Drop), x), y, z, Recreate), x, y, z, Some(after),
                                      f.roomy)
  {
  }

  lemma FailureInThreeTurns(f: Facts, x: Turn, y: Turn, z: Turn, anew: Option<nat>)
    requires OneAndTwo(x, y, z) && f.profile && f.connection && f.completed && f.secret
    ensures FailureEnds(Foretold(Course(f, Fail, Drop), ThreeTurns(x, y, z, anew)), x, y, z, anew, f.roomy)
  {
    var c := Course(f, Fail, Drop);
    FailureThroughDelete(f, x, y, z);
    FailureAnewLate(f, x, y, z, if anew.Some? then anew.value else 0);
    if anew.None? {
      ForetoldThree(c, x, y, z);
    } else if anew.value == 0 {
      ForetoldFour(c, Recreate, x, y, z);
    } else if anew.value == 1 {
      ForetoldFour(c, x, Recreate, y, z);
    } else if anew.value == 2 {
      ForetoldFour(c, x, y, Recreate, z);
    } else {
      ForetoldFour(c, x, y, z, Recreate);
    }
  }

  /**
    A renewal that fails while its profile is being deleted, in every order, and the profile created
    again at any moment or not at all: the tables agree at the end exactly when the failure is not
    recorded in the profile created anew. Otherwise the connection is back, without its secret.
  */
  lemma FailureAndDeleteAgreeIff(cfg: Settings, t: Tables, key: Key, reason: string, now: int, x: Turn, y: Turn,
                                 z: Turn, anew: Option<nat>)
    requires OneAndTwo(x, y, z) && Load(cfg, t, key).Loaded? && key.place.account in t.accounts
    ensures var mark := Marking(key, WithError(t.connections[key], reason, now));
            var (t', left) := Interleaved(cfg, t, key.place, (Some(mark), Some(Dropping(key.place))),
                                          ThreeTurns(x, y, z, anew));
            && left == (None, None)
            && (Agrees(t', key) <==> !(FailsInTheNewProfile(x, y, z, anew) && cfg.maxConnections > 0))
            && (!Agrees(t', key) ==> Load(cfg, t', key).MissingFromVault?)
  {
    AnyTwoAgreeIff(cfg, t, key, Marking(key, WithError(t.connections[key], reason, now)), Dropping(key.place),
                   ThreeTurns(x, y, z, anew));
    FailureInThreeTurns(FactsOf(cfg, t, key), x, y, z, anew);
  }

  // ---------------------------------------------------------------- as runs

  lemma OneMore(cfg: Settings, start: World, run: seq<Event>, e: Event)
    requires Runs(cfg, start, run) && Enabled(After(cfg, start, run), e)
    ensures Runs(cfg, start, run + [e]) && After(cfg, start, run + [e]) == Do(cfg, After(cfg, start, run), e)
    ensures run == [] ==> run + [e] == [e]
  {
    assert (run + [e])[..|run|] == run;
  }

  lemma FailureRecorded(cfg: Settings, w: World, key: Key, c: Connection)
    requires w.ops == map[1 := Marking(key, c)] && PutConnection(cfg, w.t, key, c).Some?
    requires !cfg.isSealed && !c.status.Pending? && key !in w.t.vault
    ensures var w' := Do(cfg, w, Step(1)); w'.ops == map[] && Load(cfg, w'.t, key).MissingFromVault?
  {
    assert Do(cfg, w, Step(1)).ops == map[];
  }

  /** A failing renewal and a whole revocation of its connection, up to the failure's record. */
  lemma RevokedUnderRenewal(cfg: Settings, w: World, key: Key, reason: string, now: int) returns (run: seq<Event>)
    requires w.ops == map[] && Load(cfg, w.t, key).Loaded? && w.t.connections[key].kind.OAuth?
    ensures Runs(cfg, w, run)
    ensures var w' := After(cfg, w, run);
            && w'.ops == map[1 := Marking(key, WithError(w.t.connections[key], reason, now))]
            && w'.t == w.t.(vault := w.t.vault - {key}, connections := w.t.connections - {key})
  {
    var c := WithError(w.t.connections[key], reason, now);
    var b1, b2 := Begin(1, Renew(key, None, reason, now)), Begin(2, RevokeConnection(key));
    OneMore(cfg, w, [], b1);
    OneMore(cfg, w, [b1], b2);
    var begun := After(cfg, w, [b1] + [b2]);
    assert begun.t == w.t && begun.ops == map[1 := Marking(key, c), 2 := Revoking(key)];
    OneMore(cfg, w, [b1] + [b2], Step(2));
    var erased := After(cfg, w, [b1] + [b2] + [Step(2)]);
    assert erased.ops == map[1 := Marking(key, c), 2 := Unlinking(key)];
    OneMore(cfg, w, [b1] + [b2] + [Step(2)], Step(2));
    run := [b1] + [b2] + [Step(2)] + [Step(2)];
    assert After(cfg, w, run).ops == map[1 := Marking(key, c)];
  }

  /** So the "missing from the vault" answer can be reached: resolve, revoke, and then the provider's refusal. */
  lemma FailedRenewalOutlivesRevoke(cfg: Settings, w: World, key: Key, reason: string, now: int)
    returns (run: seq<Event>)
    requires w.ops == map[] && Load(cfg, w.t, key).Loaded? && w.t.connections[key].kind.OAuth?
    requires |At(w.t, key.place)| <= cfg.maxConnections
    ensures Runs(cfg, w, run)
    ensures After(cfg, w, run).ops == map[] && Load(cfg, After(cfg, w, run).t, key).MissingFromVault?
  {
    var c := WithError(w.t.connections[key], reason, now);
    var revoked := RevokedUnderRenewal(cfg, w, key, reason, now);
    var gone := After(cfg, w, revoked);
    assert Others(gone.t, key) == Others(w.t, key) && At(w.t, key.place) == Others(w.t, key) + {key};
    PutFits(cfg, gone.t, key, c);
    FailureRecorded(cfg, gone, key, c);
    OneMore(cfg, w, revoked, Step(1));
    run := revoked + [Step(1)];
  }

  /**
    A revocation between the two writes of a store leaves a secret nothing points to: from any state
    with that connection and nothing under way, four steps.
  */
  lemma StoreAcrossRevoke(cfg: Settings, w: World, key: Key, secret: Secret) returns (run: seq<Event>)
    requires !cfg.isSealed && w.ops == map[] && key in w.t.connections && key.place in w.t.profiles
    requires key.place.account in w.t.accounts
    ensures Runs(cfg, w, run)
    ensures var t := After(cfg, w, run).t; key in t.vault && key !in t.connections && After(cfg, w, run).ops == map[]
  {
    var b1, b2 := Begin(1, StoreDirect(key, ApiKey, secret, false, 0)), Begin(2, RevokeConnection(key));
    OneMore(cfg, w, [], b1);
    OneMore(cfg, w, [b1], Step(1));
    OneMore(cfg, w, [b1] + [Step(1)], b2);
    OneMore(cfg, w, [b1] + [Step(1)] + [b2], Step(2));
    OneMore(cfg, w, [b1] + [Step(1)] + [b2] + [Step(2)], Step(2));
    OneMore(cfg, w, [b1] + [Step(1)] + [b2] + [Step(2)] + [Step(2)], Step(1));
    run := [b1] + [Step(1)] + [b2] + [Step(2)] + [Step(2)] + [Step(1)];
    assert After(cfg, w, run).ops == map[];
  }

  /** A store's first write and then a whole deletion of the profile, up to the store's second. */
  lemma DeletedUnderStore(cfg: Settings, w: World, key: Key, secret: Secret) returns (run: seq<Event>)
    requires !cfg.isSealed && w.ops == map[] && key in w.t.connections && key.place in w.t.profiles
    requires key.place.account in w.t.accounts
    ensures Runs(cfg, w, run)
    ensures var w' := After(cfg, w, run);
            && w'.ops == map[1 := Landing(key, secret)] && key.place.account in w'.t.accounts
            && key !in w'.t.connections && key.place !in w'.t.profiles
  {
    var b1, b2 := Begin(1, StoreDirect(key, ApiKey, secret, false, 0)), Begin(2, DeleteProfile(key.place));
    OneMore(cfg, w, [], b1);
    OneMore(cfg, w, [b1], Step(1));
    var stored := After(cfg, w, [b1] + [Step(1)]);
    assert stored.ops == map[1 := Landing(key, secret)] && stored.t.profiles == w.t.profiles;
    OneMore(cfg, w, [b1] + [Step(1)], b2);
    OneMore(cfg, w, [b1] + [Step(1)] + [b2], Step(2));
    var dropped := After(cfg, w, [b1] + [Step(1)] + [b2] + [Step(2)]);
    assert dropped.ops == map[1 := Landing(key, secret), 2 := Clearing(key.place)] && key !in dropped.t.connections;
    OneMore(cfg, w, [b1] + [Step(1)] + [b2] + [Step(2)], Step(2));
    run := [b1] + [Step(1)] + [b2] + [Step(2)] + [Step(2)];
    assert After(cfg, w, run).ops == map[1 := Landing(key, secret)];
  }

  /** A whole deletion of the profile between the two writes of a store: a secret nothing points to, in no profile. */
  lemma StoreAcrossDelete(cfg: Settings, w: World, key: Key, secret: Secret) returns (run: seq<Event>)
    requires !cfg.isSealed && w.ops == map[] && key in w.t.connections && key.place in w.t.profiles
    requires key.place.account in w.t.accounts
    ensures Runs(cfg, w, run)
    ensures var t := After(cfg, w, run).t;
            key in t.vault && key !in t.connections && key.place !in t.profiles && After(cfg, w, run).ops == map[]
  {
    var deleted := DeletedUnderStore(cfg, w, key, secret);
    OneMore(cfg, w, deleted, Step(1));
    run := deleted + [Step(1)];
    assert After(cfg, w, run).ops == map[];
  }

  /** A failing renewal and a whole deletion of its profile, up to the failure's record. */
  lemma DeletedUnderRenewal(cfg: Settings, w: World, key: Key, reason: string, now: int) returns (run: seq<Event>)
    requires w.ops == map[] && Load(cfg, w.t, key).Loaded? && w.t.connections[key].kind.OAuth?
    ensures Runs(cfg, w, run)
    ensures var w' := After(cfg, w, run);
            && w'.ops == map[1 := Marking(key, WithError(w.t.connections[key], reason, now))]
            && w'.t == DeleteSecrets(DeleteProfileRow(w.t, key.place), key.place)
  {
    var c := WithError(w.t.connections[key], reason, now);
    var b1, b2 := Begin(1, Renew(key, None, reason, now)), Begin(2, DeleteProfile(key.place));
    OneMore(cfg, w, [], b1);
    OneMore(cfg, w, [b1], b2);
    var begun := After(cfg, w, [b1] + [b2]);
    assert begun.t == w.t && begun.ops == map[1 := Marking(key, c), 2 := Dropping(key.place)];
    OneMore(cfg, w, [b1] + [b2], Step(2));
    var dropped := After(cfg, w, [b1] + [b2] + [Step(2)]);
    assert dropped.ops == map[1 := Marking(key, c), 2 := Clearing(key.place)];
    OneMore(cfg, w, [b1] + [b2] + [Step(2)], Step(2));
    run := [b1] + [b2] + [Step(2)] + [Step(2)];
    assert After(cfg, w, run).ops == map[1 := Marking(key, c)];
  }

  /**
    A failure recorded after its profile was deleted and created again: a connection with no secret,
    in a new profile.
  */
  lemma FailedRenewalOutlivesProfile(cfg: Settings, w: World, key: Key, reason: string, now: int)
    returns (run: seq<Event>)
    requires w.ops == map[] && Load(cfg, w.t, key).Loaded? && w.t.connections[key].kind.OAuth?
    requires key.place.account in w.t.accounts && cfg.maxConnections > 0
    ensures Runs(cfg, w, run)
    ensures After(cfg, w, run).ops == map[] && Load(cfg, After(cfg, w, run).t, key).MissingFromVault?
  {
    var c := WithError(w.t.connections[key], reason, now);
    var gone := DeletedUnderRenewal(cfg, w, key, reason, now);
    OneMore(cfg, w, gone, CreateProfile(key.place));
    var anew := After(cfg, w, gone + [CreateProfile(key.place)]);
    assert Others(anew.t, key) == {};
    PutFits(cfg, anew.t, key, c);
    OneMore(cfg, w, gone + [CreateProfile(key.place)], Step(1));
    run := gone + [CreateProfile(key.place)] + [Step(1)];
    FailureRecorded(cfg, anew, key, c);
  }
}
