/** The store logic behind the web forms: creating a profile, editing (and
    renaming) one, deleting one, and recording today's intake. Template
    rendering and the HTTP layer are not modelled; each request is a pure
    function from the owner's database to an outcome. */
module WebForms {
  import opened Wrappers
  import opened Environment
  import opened Text
  import opened ProfileStore
  import opened DailyCalories

  /** The status names of the forms' select box, in status-code order. */
  const StatusNames: seq<string> := [
    "正在發育的幼犬(4個月以下)",
    "正在發育的幼犬(4個月-1歲)",
    "結紮成年犬(1-7歲)",
    "未結紮成年犬(1-7歲)",
    "輕度減肥成年犬",
    "重度減肥成年犬",
    "過瘦成年犬",
    "輕度活動量",
    "劇烈活動量",
    "高齡犬",
    "懷孕中的狗媽媽",
    "哺乳中的狗媽媽",
    "生病成年犬"
  ]

  /** `statuses.index(status)`: the first position, `None` where Python
      raises `ValueError`. */
  function StatusIndex(status: string): (r: Option<nat>)
    ensures r.Some? <==> status in StatusNames
    ensures r.Some? ==> r.value < |StatusNames| && StatusNames[r.value] == status
    ensures r.Some? ==> forall k | 0 <= k < r.value :: StatusNames[k] != status
  {
    FirstIndex(StatusNames, status, 0)
  }

  function FirstIndex(names: seq<string>, x: string, from: nat): (r: Option<nat>)
    requires from <= |names|
    ensures r.Some? <==> x in names[from..]
    ensures r.Some? ==> from <= r.value < |names| && names[r.value] == x
    ensures r.Some? ==> forall k | from <= k < r.value :: names[k] != x
    decreases |names| - from
  {
    if from == |names| then None
    else if names[from] == x then Some(from)
    else
      assert names[from..] == [names[from]] + names[from + 1..];
      FirstIndex(names, x, from + 1)
  }

  /** The fields of the create and edit forms; a missing field reads as the
      empty string, which Python's `all([...])` treats the same way. */
  datatype PetForm = PetForm(name: string, birthday: string, weight: string, breed: string, status: string)

  datatype FormError =
    | MissingFields     // 請填寫所有欄位！
    | BadWeightOrDate   // 體重必須為數字，生日格式必須為 YYYY-MM-DD！
    | NameTaken         // 此名字已存在，請使用其他名字！
    | PetNotFound       // 未找到該狗狗資料！

  /** A form request either is rejected before any write, or completes with
      its targets, or raises after its writes were committed (the route then
      fails with the database already changed). */
  datatype FormOutcome =
    | Rejected(error: FormError)
    | Saved(db: Db, targets: Targets)
    | Crashed(db: Db)

  /** The owner's database after a form request. */
  function StoredDb(o: FormOutcome, db: Db): Db {
    if o.Rejected? then db else o.db
  }

  predicate Complete(f: PetForm) {
    f.name != "" && f.birthday != "" && f.weight != "" && f.breed != "" && f.status != ""
  }

  predicate WellTyped(env: Env, f: PetForm) {
    env.parseFloat(f.weight).Some? && env.validDate(f.birthday)
  }

  /** The row a form writes: breed and status are the submitted texts. */
  function FormPet(env: Env, f: PetForm): Pet
    requires WellTyped(env, f)
  {
    Pet(f.birthday, env.parseFloat(f.weight).value, Some(f.breed), Some(f.status))
  }

  /** Whether Python's `weight ** 0.75` stays real. A negative weight makes
      it complex, and the `round(rer, 2)` that follows raises `TypeError`. */
  predicate RealPower(env: Env, f: PetForm)
    requires WellTyped(env, f)
  {
    env.parseFloat(f.weight).value >= 0.0
  }

  /** The targets shown after a save, once the status name has been turned
      into its code. */
  function FormTargets(env: Env, f: PetForm, index: nat): Targets
    requires WellTyped(env, f) && index < |StatusCodes|
  {
    ComputeTargets(env.parseFloat(f.weight).value, StatusCodes[index], env.pow34)
  }

  /** `create_dog_profile` (POST). */
  function CreateDogProfile(env: Env, db: Db, f: PetForm): (r: FormOutcome)
    ensures r.Rejected? <==> !Complete(f) || !WellTyped(env, f) || f.name in db.pets
    ensures r == Rejected(MissingFields) <==> !Complete(f)
    ensures r == Rejected(BadWeightOrDate) <==> Complete(f) && !WellTyped(env, f)
    ensures r == Rejected(NameTaken) <==> Complete(f) && WellTyped(env, f) && f.name in db.pets
    ensures !r.Rejected? ==>
      && f.name !in db.pets
      && PetWritten(db, r.db, f.name, FormPet(env, f))
      && r.db.records == db.records
    ensures r.Saved? <==> !r.Rejected? && f.status in StatusNames && RealPower(env, f)
    ensures r.Saved? ==> r.targets == FormTargets(env, f, StatusIndex(f.status).value)
    ensures BirthdaysValid(env, db) ==> BirthdaysValid(env, StoredDb(r, db))
  {
    if !Complete(f) then Rejected(MissingFields)
    else if !WellTyped(env, f) then Rejected(BadWeightOrDate)
    else match InsertPet(db, f.name, FormPet(env, f))
      case Failure(_) => Rejected(NameTaken)
      case Success(db') =>
        match StatusIndex(f.status)
        case None => Crashed(db')
        case Some(k) => if RealPower(env, f) then Saved(db', FormTargets(env, f, k)) else Crashed(db')
  }

  /** Whether an edit of `name` passes every check before the write. */
  predicate EditAccepted(env: Env, db: Db, name: Name, f: PetForm) {
    name in db.pets && Complete(f) && WellTyped(env, f) && !(f.name != name && f.name in db.pets)
  }

  /** `edit_dog_profile` (POST) for the pet called `name`. The new row is
      written with `INSERT OR REPLACE` under the submitted name; on a rename
      the old row is left in place and the daily records are relabelled,
      which aborts (after the row was committed) when both names have a
      record on the same date. */
  function EditDogProfile(env: Env, db: Db, name: Name, f: PetForm): (r: FormOutcome)
    ensures r == Rejected(PetNotFound) <==> name !in db.pets
    ensures r == Rejected(MissingFields) <==> name in db.pets && !Complete(f)
    ensures r == Rejected(BadWeightOrDate) <==> name in db.pets && Complete(f) && !WellTyped(env, f)
    ensures r == Rejected(NameTaken) <==>
      name in db.pets && Complete(f) && WellTyped(env, f) && f.name != name && f.name in db.pets
    ensures r.Rejected? <==> !EditAccepted(env, db, name, f)
    ensures !r.Rejected? ==> r == WriteEdit(env, db, name, f)
  {
    if name !in db.pets then Rejected(PetNotFound)
    else if !Complete(f) then Rejected(MissingFields)
    else if !WellTyped(env, f) then Rejected(BadWeightOrDate)
    else if f.name != name && f.name in db.pets then Rejected(NameTaken)
    else WriteEdit(env, db, name, f)
  }

  /** The database after the writes of an accepted edit: the row under the
      submitted name, then, on a rename, the relabelling of the records,
      which aborts on a date conflict with the row already committed. */
  function EditWrites(env: Env, db: Db, name: Name, f: PetForm): (r: Db)
    requires EditAccepted(env, db, name, f)
    ensures PetWritten(db, r, f.name, FormPet(env, f)) && name in r.pets
    ensures f.name == name ==> r.records == db.records
    ensures f.name != name && !RelabelConflict(db.records, name, f.name) ==>
      && (forall k | k in r.records :: k.0 != name)
      && (forall k | k in db.records && k.0 == name ::
            (f.name, k.1) in r.records && r.records[(f.name, k.1)] == db.records[k])
      && (forall k | k in db.records && k.0 != name :: k in r.records && r.records[k] == db.records[k])
    ensures RelabelConflict(db.records, name, f.name) ==> r.records == db.records
    ensures BirthdaysValid(env, db) ==> BirthdaysValid(env, r)
  {
    var saved := SavePet(db, f.name, FormPet(env, f));
    match RelabelRecords(saved.records, name, f.name)
    case None => saved
    case Some(records) => saved.(records := records)
  }

  /** The outcome of an accepted edit: a rename conflict, an unknown status
      name and a negative weight each raise after the writes; otherwise the
      page shows the targets for the new weight and status. */
  function WriteEdit(env: Env, db: Db, name: Name, f: PetForm): (r: FormOutcome)
    requires EditAccepted(env, db, name, f)
    ensures !r.Rejected? && r.db == EditWrites(env, db, name, f)
    ensures RelabelConflict(db.records, name, f.name) ==> r.Crashed?
    ensures r.Saved? <==> f.status in StatusNames && RealPower(env, f) && !RelabelConflict(db.records, name, f.name)
    ensures r.Saved? ==> r.targets == FormTargets(env, f, StatusIndex(f.status).value)
  {
    var written := EditWrites(env, db, name, f);
    if RelabelConflict(db.records, name, f.name) then Crashed(written)
    else match StatusIndex(f.status)
      case None => Crashed(written)
      case Some(k) => if RealPower(env, f) then Saved(written, FormTargets(env, f, k)) else Crashed(written)
  }

  /** The amount a form field contributes: an empty field counts as `0`,
      otherwise `int(float(field))`; `None` where Python raises. */
  function Amount(env: Env, field: string): (r: Option<int>)
    ensures field == "" ==> r == Some(0)
    ensures field != "" ==> (r.Some? <==> env.parseFloat(field).Some?)
    ensures r.Some? && field != "" ==> r.value == Trunc(env.parseFloat(field).value)
  {
    if field == "" then Some(0)
    else match env.parseFloat(field)
      case None => None
      case Some(x) => Some(Trunc(x))
  }

  datatype IntakeError =
    | NoPets          // redirected to the create form
    | NothingEntered  // 請至少填寫熱量或水量！
    | NotNumeric      // 熱量和水量必須為數字！

  /** A rejected submission renders the form again; a recorded one
      redirects; a total too large for SQLite's integers raises
      `OverflowError`, which the form's `except ValueError` does not catch,
      so the request fails with nothing written. */
  datatype IntakeOutcome = IntakeRejected(error: IntakeError) | Recorded(db: Db) | IntakeFailed

  /** Today's stored totals for a name, zero when there is no row yet. */
  function TotalsSoFar(db: Db, name: Name, date: Date): Intake {
    match GetDailyRecord(db, name, date)
    case Some(rec) => rec
    case None => Intake(0, 0)
  }

  /** The stored totals plus the submitted amounts. */
  function Totals(db: Db, name: Name, date: Date, calories: int, water: int): Intake {
    Intake(TotalsSoFar(db, name, date).calories + calories, TotalsSoFar(db, name, date).water + water)
  }

  /** Read, add, write: the stored totals grow by the given amounts, as far
      as a double holds them. `None` when a total does not fit SQLite's
      integers. */
  function Accumulate(db: Db, name: Name, date: Date, calories: int, water: int): (r: Option<Db>)
    ensures var total := Totals(db, name, date, calories, water);
      && (r.Some? <==> FitsInt64(total.calories) && FitsInt64(total.water))
      && (r.Some? ==>
           && r.value.pets == db.pets
           && r.value.records.Keys == db.records.Keys + {(name, date)}
           && r.value.records[(name, date)] == Intake(NearestDouble(total.calories), NearestDouble(total.water))
           && forall k | k in db.records && k != (name, date) :: r.value.records[k] == db.records[k])
  {
    var total := Totals(db, name, date, calories, water);
    TruncIntegral(total.calories);
    TruncIntegral(total.water);
    SaveDailyRecord(db, name, date, total.calories as real, total.water as real)
  }

  /** `record_daily_intake` (POST): today's stored totals become the
      previous totals (or zero) plus the submitted amounts. */
  function RecordDailyIntake(env: Env, db: Db, name: Name, calories: string, water: string)
    : (r: IntakeOutcome)
    ensures r == IntakeRejected(NoPets) <==> |db.pets| == 0
    ensures r == IntakeRejected(NothingEntered) <==> |db.pets| > 0 && Strip(calories) == "" && Strip(water) == ""
    ensures r == IntakeRejected(NotNumeric) <==>
      |db.pets| > 0 && (Strip(calories) != "" || Strip(water) != "")
      && (Amount(env, Strip(calories)).None? || Amount(env, Strip(water)).None?)
    ensures !r.IntakeRejected? ==>
      var total := Totals(db, name, env.today, Amount(env, Strip(calories)).value, Amount(env, Strip(water)).value);
      && (r.Recorded? <==> FitsInt64(total.calories) && FitsInt64(total.water))
      && (r.Recorded? ==>
           && r.db.records.Keys == db.records.Keys + {(name, env.today)}
           && r.db.records[(name, env.today)] == Intake(NearestDouble(total.calories), NearestDouble(total.water))
           && r.db.pets == db.pets
           && forall k | k in db.records && k != (name, env.today) :: r.db.records[k] == db.records[k])
  {
    if |db.pets| == 0 then IntakeRejected(NoPets)
    else
      var c := Strip(calories);
      var w := Strip(water);
      if c == "" && w == "" then IntakeRejected(NothingEntered)
      else
        var dc := Amount(env, c);
        var dw := Amount(env, w);
        if dc.None? || dw.None? then IntakeRejected(NotNumeric)
        else match Accumulate(db, name, env.today, dc.value, dw.value)
          case Some(after) => Recorded(after)
          case None => IntakeFailed
  }

  /** `int()` of a whole number gives it back. */
  lemma TruncIntegral(n: int)
    ensures Trunc(n as real) == n
  {
  }
}
