/** One owner's SQLite database, as two maps: the `dogs` table keyed by name
    and the `daily_records` table keyed by `(name, date)`. Foreign keys are
    not enforced, so records may exist for names that have no pet row. */
module ProfileStore {
  import opened Wrappers
  import opened Environment

  type Name = string
  type Date = string

  /** A row of `dogs` (the name is its key). */
  datatype Pet = Pet(birthday: string, weight: real, breed: Option<string>, status: Option<string>)

  /** A row of `daily_records`; both values are stored after `int()`. */
  datatype Intake = Intake(calories: int, water: int)

  datatype Db = Db(pets: map<Name, Pet>, records: map<(Name, Date), Intake>)

  const EmptyDb: Db := Db(map[], map[])

  /** Python `int(x)` on a float: truncation toward zero. */
  function Trunc(x: real): (n: int)
    ensures x >= 0.0 ==> 0.0 <= n as real <= x < n as real + 1.0
    ensures x < 0.0 ==> n as real - 1.0 < x <= n as real <= 0.0
  {
    if x >= 0.0 then x.Floor else -((-x).Floor)
  }

  /** `after` holds `pet` under `name` and every other pet of `before`
      unchanged, and nothing else. */
  predicate PetWritten(before: Db, after: Db, name: Name, pet: Pet) {
    && after.pets.Keys == before.pets.Keys + {name}
    && after.pets[name] == pet
    && forall n | n in before.pets && n != name :: after.pets[n] == before.pets[n]
  }

  /** `save_dog_data`: `INSERT OR REPLACE` into `dogs`. */
  function SavePet(db: Db, name: Name, pet: Pet): (r: Db)
    ensures PetWritten(db, r, name, pet)
    ensures r.records == db.records
  {
    db.(pets := db.pets[name := pet])
  }

  datatype InsertError = DuplicateName

  /** The plain `INSERT` of the create form: the primary key rejects a name
      already present, leaving the table as it was. */
  function InsertPet(db: Db, name: Name, pet: Pet): (r: Result<Db, InsertError>)
    ensures r.Failure? <==> name in db.pets
    ensures r.Success? ==> PetWritten(db, r.value, name, pet) && r.value.records == db.records
  {
    if name in db.pets then Failure(DuplicateName) else Success(SavePet(db, name, pet))
  }

  /** `delete_dog`: deletes the pet row and every daily record under that
      name, in one transaction. */
  function DeletePet(db: Db, name: Name): (r: Db)
    ensures r.pets.Keys == db.pets.Keys - {name}
    ensures forall n | n in r.pets :: r.pets[n] == db.pets[n]
    ensures forall k | k in db.records :: k in r.records <==> k.0 != name
    ensures forall k | k in r.records :: k in db.records && r.records[k] == db.records[k]
  {
    Db(db.pets - {name}, map k | k in db.records && k.0 != name :: db.records[k])
  }

  /** Whether `UPDATE daily_records SET name = to WHERE name = from` would
      hit the `(name, date)` primary key: some date has a record under both
      names. */
  predicate RelabelConflict(records: map<(Name, Date), Intake>, from: Name, to: Name) {
    from != to && exists k | k in records :: k.0 == from && (to, k.1) in records
  }

  /** The rename cascade on `daily_records`. SQLite aborts the whole
      statement on a key conflict, which gives `None`; otherwise every record
      of `from` moves to `to` with its values. */
  function RelabelRecords(records: map<(Name, Date), Intake>, from: Name, to: Name)
    : (r: Option<map<(Name, Date), Intake>>)
    ensures r.None? <==> RelabelConflict(records, from, to)
    ensures r.Some? && from != to ==>
      && (forall k | k in r.value :: k.0 != from)
      && (forall k | k in records && k.0 != from :: k in r.value && r.value[k] == records[k])
      && (forall k | k in records && k.0 == from :: (to, k.1) in r.value && r.value[(to, k.1)] == records[k])
      && (forall k | k in r.value :: k in records || (from, k.1) in records)
    ensures r.Some? && from == to ==> r.value == records
  {
    if from == to then Some(records)
    else if RelabelConflict(records, from, to) then None
    else
      var kept := map k | k in records && k.0 != from :: records[k];
      var moved := map k | k in records && k.0 == from :: (to, k.1) := records[k];
      Some(kept + moved)
  }

  /** 2^53: below it every integer is a double. */
  const TwoTo53: int := 0x20_0000_0000_0000

  /** SQLite's 64-bit INTEGER range; `sqlite3` refuses to bind a Python int
      outside it and raises `OverflowError`. */
  predicate FitsInt64(v: int) {
    -0x8000_0000_0000_0000 <= v < 0x8000_0000_0000_0000
  }

  /** `m * 2^e`, by doubling. */
  function Shl(m: nat, e: nat): nat {
    if e == 0 then m else 2 * Shl(m, e - 1)
  }

  /** `n // 2^e`, by halving. */
  function Shr(n: nat, e: nat): nat {
    if e == 0 then n else Shr(n / 2, e - 1)
  }

  lemma {:induction false} ShlAdd(a: nat, b: nat, e: nat)
    ensures Shl(a + b, e) == Shl(a, e) + Shl(b, e)
  {
    if e > 0 {
      ShlAdd(a, b, e - 1);
    }
  }

  /** Shifting right and back left keeps the high bits and drops fewer
      than `2^e`. */
  lemma {:induction false} ShrBounds(n: nat, e: nat)
    ensures Shl(Shr(n, e), e) <= n < Shl(Shr(n, e), e) + Shl(1, e)
  {
    if e > 0 {
      ShrBounds(n / 2, e - 1);
    }
  }

  lemma {:induction false} ShrShl(m: nat, e: nat)
    ensures Shr(Shl(m, e), e) == m
  {
    if e > 0 {
      assert Shl(m, e) / 2 == Shl(m, e - 1);
      ShrShl(m, e - 1);
    }
  }

  /** How many low bits a double of this magnitude cannot hold: none below
      2^53, one more for each power of two above, since a double carries 53
      significant bits. */
  function Exponent(n: nat): (e: nat)
    ensures n < TwoTo53 ==> e == 0
    ensures n >= TwoTo53 ==> Shl(1, e) * (TwoTo53 / 2) <= n < Shl(1, e) * TwoTo53
    decreases n
  {
    if n < TwoTo53 then 0 else 1 + Exponent(n / 2)
  }

  /** The gap between neighbouring doubles at a magnitude. */
  function Spacing(n: nat): (gap: nat)
    ensures gap >= 1
    ensures n < TwoTo53 ==> gap == 1
    ensures n >= TwoTo53 ==> gap * (TwoTo53 / 2) <= n < gap * TwoTo53
  {
    PowerPositive(Exponent(n));
    Shl(1, Exponent(n))
  }

  lemma {:induction false} PowerPositive(e: nat)
    ensures Shl(1, e) >= 1
  {
    if e > 0 {
      PowerPositive(e - 1);
    }
  }

  /** `d` is a multiple of `2^e`: shifting its low bits out and back loses
      nothing. */
  predicate Representable(d: nat, e: nat) {
    Shl(Shr(d, e), e) == d
  }

  /** The double nearest to a magnitude, ties to the even multiple of the
      gap: what a `REAL` column keeps of an integer. */
  function NearestMagnitude(n: nat): (d: nat)
    ensures Representable(d, Exponent(n))
    ensures (d - n) * 2 <= Spacing(n) && (n - d) * 2 <= Spacing(n)
    ensures (d - n) * 2 == Spacing(n) || (n - d) * 2 == Spacing(n) ==> Shr(d, Exponent(n)) % 2 == 0
    ensures Representable(n, Exponent(n)) ==> d == n
  {
    var e := Exponent(n);
    var q := Shr(n, e);
    var low := Shl(q, e);
    var gap := Spacing(n);
    ShrBounds(n, e);
    ShlAdd(q, 1, e);
    var up := (n - low) * 2 > gap || ((n - low) * 2 == gap && q % 2 == 1);
    var k := if up then q + 1 else q;
    ShrShl(k, e);
    RoundingChoice(n, low, gap, q, up);
    Shl(k, e)
  }

  /** Rounding between the multiples `low` and `low + gap` around `n`:
      the nearer one, the one with an even quotient on a tie. */
  lemma RoundingChoice(n: int, low: int, gap: int, q: int, up: bool)
    requires low <= n < low + gap
    requires up == ((n - low) * 2 > gap || ((n - low) * 2 == gap && q % 2 == 1))
    ensures var d := if up then low + gap else low;
      && (d - n) * 2 <= gap && (n - d) * 2 <= gap
      && ((d - n) * 2 == gap || (n - d) * 2 == gap ==> (if up then q + 1 else q) % 2 == 0)
      && (low == n ==> d == n)
  {
  }

  /** An integer stored in a `REAL` column and read back with `int()`: the
      nearest double, rounding symmetric about zero. */
  function NearestDouble(v: int): (d: int)
    ensures -TwoTo53 <= v <= TwoTo53 ==> d == v
    ensures v >= 0 ==> d >= 0 && (d - v) * 2 <= Spacing(v) && (v - d) * 2 <= Spacing(v)
    ensures v < 0 ==> d <= 0 && (d - v) * 2 <= Spacing(-v) && (v - d) * 2 <= Spacing(-v)
  {
    if v >= 0 then NearestMagnitude(v) else -(NearestMagnitude(-v) as int)
  }

  /** `save_daily_record`: `INSERT OR REPLACE` of today's row with both
      values truncated; whatever was stored for that name and date is
      overwritten, not added to. A truncated value outside SQLite's 64-bit
      integers raises before anything is written (`None`); the `REAL`
      columns keep the nearest double of each value. */
  function SaveDailyRecord(db: Db, name: Name, date: Date, calories: real, water: real): (r: Option<Db>)
    ensures r.Some? <==> FitsInt64(Trunc(calories)) && FitsInt64(Trunc(water))
    ensures r.Some? ==>
      && r.value.pets == db.pets
      && r.value.records.Keys == db.records.Keys + {(name, date)}
      && r.value.records[(name, date)] == Intake(NearestDouble(Trunc(calories)), NearestDouble(Trunc(water)))
      && forall k | k in db.records && k != (name, date) :: r.value.records[k] == db.records[k]
  {
    var c := Trunc(calories);
    var w := Trunc(water);
    if FitsInt64(c) && FitsInt64(w) then
      Some(db.(records := db.records[(name, date) := Intake(NearestDouble(c), NearestDouble(w))]))
    else None
  }

  /** `get_daily_record`: the row for a name and date, if any. */
  function GetDailyRecord(db: Db, name: Name, date: Date): (r: Option<Intake>)
    ensures r.Some? <==> (name, date) in db.records
    ensures r.Some? ==> r.value == db.records[(name, date)]
  {
    if (name, date) in db.records then Some(db.records[(name, date)]) else None
  }

  /** Python `days // 365`: floor division, which Dafny's `/` agrees with
      for a positive divisor. */
  function AgeInYears(days: int): (age: int)
    ensures age * 365 <= days < age * 365 + 365
  {
    days / 365
  }

  /** What `get_dog_data` returns: the row plus the age in whole years. */
  datatype DogData = DogData(name: Name, birthday: string, weight: real,
                             breed: Option<string>, status: Option<string>, age: int)

  /** `get_dog_data`. */
  function GetDogData(env: Env, db: Db, name: Name): (r: Option<DogData>)
    ensures r.Some? <==> name in db.pets
    ensures r.Some? ==>
      && r.value.name == name
      && Pet(r.value.birthday, r.value.weight, r.value.breed, r.value.status) == db.pets[name]
      && r.value.age * 365 <= env.daysSince(r.value.birthday) < r.value.age * 365 + 365
  {
    if name in db.pets then
      var p := db.pets[name];
      Some(DogData(name, p.birthday, p.weight, p.breed, p.status, AgeInYears(env.daysSince(p.birthday))))
    else None
  }

  /** Every stored birthday parses, so `get_dog_data` and `get_all_dogs`
      never raise while reading it back. */
  predicate BirthdaysValid(env: Env, db: Db) {
    forall n | n in db.pets :: env.validDate(db.pets[n].birthday)
  }
}
