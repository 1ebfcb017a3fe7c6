/** One user's conversation: the step they are in, the data cached with it,
    and the transition each text or image turn makes. A transition sees only
    this user's step and database and returns the next step (`None` when the
    session entry is deleted), the database after the turn, and the reply. */
module Session {
  import opened Wrappers
  import opened Text
  import opened Environment
  import opened ProfileStore
  import opened DailyCalories
  import opened ChatParsing
  import opened Messages

  /** The steps of `user_states`, each with the data it carries. */
  datatype Step =
    | AwaitingDogInfo
    | AwaitingSaveConfirmation(pet: PendingPet)
    | AwaitingDogName
    | AwaitingNutritionInfo
    | AwaitingBreedName
    | AwaitingDailyRecord
    | AwaitingRecordConfirmation(intake: PendingIntake)
    | AwaitingDailyRecordCheck
    | AwaitingFeedingWeight(nutrition: map<string, string>)
    | AwaitingRestaurantChoice
    | AwaitingLandmarkName
    | AwaitingPackageImage
    | AwaitingFreshFoodImage

  /** The message sent back; the structured cases stand for the formatted
      texts whose numbers the chat prints with Python's float formatting. */
  datatype Reply =
    | Silent
    | Say(message: Message)
    | ConfirmPet(pet: PendingPet, age: int)
    | Profile(dog: DogData, showsBreedAndStatus: bool)
    | NutritionTargets(name: string, weight: real, targets: Targets)
    | ConfirmRecord(calories: real, water: real)
    | TodayRecord(record: Intake)
    | FeedingReport(calories: real, protein: real, fat: real, fiber: real, carbs: real, water: real)
    | FoodReport(foods: set<string>)

  datatype Outcome = Outcome(next: Option<Step>, db: Db, reply: Reply)

  /** `user_input.upper() == 'Y'`. */
  predicate IsYes(input: string) {
    input == "Y" || input == "y"
  }

  /** `user_input.upper() == 'N'`. */
  predicate IsNo(input: string) {
    input == "N" || input == "n"
  }

  /** Python truthiness of a nullable text column. */
  predicate Truthy(o: Option<string>) {
    o.Some? && o.value != ""
  }

  /** The data a step caches satisfies what was checked before caching it. */
  predicate StepValid(env: Env, s: Step) {
    s.AwaitingSaveConfirmation? ==> env.validDate(s.pet.birthday)
  }

  // ---------------------------------------------------------------------
  // One function per step of `handle_text_message`.
  // ---------------------------------------------------------------------

  /** `awaiting_dog_info`: a well-formed message is cached for confirmation
      and echoed with the age; anything else re-prompts and keeps the step. */
  function DogInfoTurn(env: Env, db: Db, input: string): (r: Outcome)
    ensures r.db == db
    ensures r.next.Some?
    ensures r.next.value.AwaitingSaveConfirmation? <==> ParsePetInfo(env, input).Some?
    ensures r.next.value.AwaitingSaveConfirmation? ==>
      && r.next.value.pet == ParsePetInfo(env, input).value
      && env.validDate(r.next.value.pet.birthday)
      && r.reply.ConfirmPet? && r.reply.pet == r.next.value.pet
      && r.reply.age * 365 <= env.daysSince(r.reply.pet.birthday) < r.reply.age * 365 + 365
    ensures !r.next.value.AwaitingSaveConfirmation? ==>
      r.next == Some(AwaitingDogInfo) && r.reply == Say(PetInfoFormatError)
  {
    match ParsePetInfo(env, input)
    case Some(p) => Outcome(Some(AwaitingSaveConfirmation(p)), db, ConfirmPet(p, AgeInYears(env.daysSince(p.birthday))))
    case None => Outcome(Some(AwaitingDogInfo), db, Say(PetInfoFormatError))
  }

  /** `awaiting_save_confirmation`: `Y`/`y` stores the cached pet with no
      breed and no status, replacing a pet of the same name; every answer,
      valid or not, ends the session. */
  function SaveConfirmationTurn(db: Db, p: PendingPet, input: string): (r: Outcome)
    ensures r.next.None?
    ensures IsYes(input) ==>
      && PetWritten(db, r.db, p.name, Pet(p.birthday, p.weight, None, None))
      && r.db.records == db.records
      && r.reply == Say(PetSaved)
    ensures !IsYes(input) ==> r.db == db
    ensures IsNo(input) ==> r.reply == Say(NotSaved)
    ensures !IsYes(input) && !IsNo(input) ==> r.reply == Say(AskYesNo)
  {
    if IsYes(input) then Outcome(None, SavePet(db, p.name, Pet(p.birthday, p.weight, None, None)), Say(PetSaved))
    else if IsNo(input) then Outcome(None, db, Say(NotSaved))
    else Outcome(None, db, Say(AskYesNo))
  }

  /** `awaiting_dog_name`: the whole input is the name looked up. */
  function DogNameTurn(env: Env, db: Db, input: string): (r: Outcome)
    ensures r.next.None? && r.db == db
    ensures r.reply.Profile? <==> input in db.pets
    ensures r.reply.Profile? ==>
      var dog := r.reply.dog;
      && dog.name == input
      && Pet(dog.birthday, dog.weight, dog.breed, dog.status) == db.pets[input]
      && dog.age * 365 <= env.daysSince(dog.birthday) < dog.age * 365 + 365
      && (r.reply.showsBreedAndStatus <==> Truthy(db.pets[input].breed) && Truthy(db.pets[input].status))
    ensures !r.reply.Profile? ==> r.reply == Say(DogNotFound(input))
  {
    match GetDogData(env, db, input)
    case Some(d) => Outcome(None, db, Profile(d, Truthy(d.breed) && Truthy(d.status)))
    case None => Outcome(None, db, Say(DogNotFound(input)))
  }

  /** `awaiting_nutrition_info`: never writes. A malformed message keeps the
      step; a status other than "1".."13" and an unknown name end the
      session with an error; otherwise the targets are reported. */
  function NutritionInfoTurn(env: Env, db: Db, input: string): (r: Outcome)
    ensures r.db == db
    ensures r.next.Some? <==> ParseNutritionRequest(input).None?
    ensures r.next.Some? ==> r.next.value == AwaitingNutritionInfo && r.reply == Say(NutritionFormatError)
    ensures r.next.None? ==> NutritionAnswered(env, db, ParseNutritionRequest(input).value, r.reply)
  {
    match ParseNutritionRequest(input)
    case None => Outcome(Some(AwaitingNutritionInfo), db, Say(NutritionFormatError))
    case Some(request) => Outcome(None, db, NutritionAnswer(env, db, request))
  }

  /** What a well-formed nutrition request is answered with: a status
      outside "1".."13" or an unknown name is an error; otherwise the targets
      for the stored weight, with the interval tabulated for the status. */
  predicate NutritionAnswered(env: Env, db: Db, request: (string, string), reply: Reply) {
    var (name, status) := request;
    && (status !in StatusCodes ==> reply == Say(StatusRangeError))
    && (status in StatusCodes && name !in db.pets ==> reply == Say(DogNotFound(name)))
    && (status in StatusCodes && name in db.pets ==>
         && reply.NutritionTargets?
         && reply.name == name && reply.weight == db.pets[name].weight
         && reply.targets == ComputeTargets(reply.weight, status, env.pow34))
  }

  function NutritionAnswer(env: Env, db: Db, request: (string, string)): (reply: Reply)
    ensures NutritionAnswered(env, db, request, reply)
  {
    var (name, status) := request;
    if status !in StatusCodes then Say(StatusRangeError)
    else match GetDogData(env, db, name)
      case None => Say(DogNotFound(name))
      case Some(d) => NutritionTargets(name, d.weight, ComputeTargets(d.weight, status, env.pow34))
  }

  /** `awaiting_breed_name`: the breed table's text, or a not-found reply. */
  function BreedNameTurn(env: Env, db: Db, input: string): (r: Outcome)
    ensures r.next.None? && r.db == db
    ensures env.breedInfo(input).Some? ==> r.reply == Say(Relay(env.breedInfo(input).value))
    ensures env.breedInfo(input).None? ==> r.reply == Say(BreedNotFound(input))
  {
    match env.breedInfo(input)
    case Some(info) => Outcome(None, db, Say(Relay(info)))
    case None => Outcome(None, db, Say(BreedNotFound(input)))
  }

  /** `awaiting_daily_record`: a well-formed record is cached for
      confirmation; anything else re-prompts and keeps the step. */
  function DailyRecordTurn(env: Env, db: Db, input: string): (r: Outcome)
    ensures r.db == db && r.next.Some?
    ensures r.next.value.AwaitingRecordConfirmation? <==> ParseDailyRecord(env, input).Some?
    ensures r.next.value.AwaitingRecordConfirmation? ==>
      var i := r.next.value.intake;
      i == ParseDailyRecord(env, input).value && r.reply == ConfirmRecord(i.calories, i.water)
    ensures !r.next.value.AwaitingRecordConfirmation? ==>
      r.next == Some(AwaitingDailyRecord) && r.reply == Say(RecordFormatError)
  {
    match ParseDailyRecord(env, input)
    case Some(i) => Outcome(Some(AwaitingRecordConfirmation(i)), db, ConfirmRecord(i.calories, i.water))
    case None => Outcome(Some(AwaitingDailyRecord), db, Say(RecordFormatError))
  }

  /** `awaiting_record_confirmation`: `Y`/`y` stores today's record with
      both values truncated, overwriting whatever today's row held; every
      answer ends the session. A value too large for SQLite's integers
      raises inside the save, outside any `try`: nothing is sent and the
      step stays. */
  function RecordConfirmationTurn(env: Env, db: Db, i: PendingIntake, input: string): (r: Outcome)
    ensures IsYes(input) && SaveDailyRecord(db, i.name, env.today, i.calories, i.water).Some? ==>
      && r.next.None?
      && r.db.pets == db.pets
      && r.db.records.Keys == db.records.Keys + {(i.name, env.today)}
      && r.db.records[(i.name, env.today)] == Intake(NearestDouble(Trunc(i.calories)), NearestDouble(Trunc(i.water)))
      && (forall k | k in db.records && k != (i.name, env.today) :: r.db.records[k] == db.records[k])
      && r.reply == Say(RecordSaved)
    ensures IsYes(input) && SaveDailyRecord(db, i.name, env.today, i.calories, i.water).None? ==>
      r == Outcome(Some(AwaitingRecordConfirmation(i)), db, Silent)
    ensures !IsYes(input) ==> r.next.None? && r.db == db
    ensures IsNo(input) ==> r.reply == Say(NotSaved)
    ensures !IsYes(input) && !IsNo(input) ==> r.reply == Say(AskYesNo)
  {
    if IsYes(input) then
      match SaveDailyRecord(db, i.name, env.today, i.calories, i.water)
      case Some(saved) => Outcome(None, saved, Say(RecordSaved))
      case None => Outcome(Some(AwaitingRecordConfirmation(i)), db, Silent)
    else if IsNo(input) then Outcome(None, db, Say(NotSaved))
    else Outcome(None, db, Say(AskYesNo))
  }

  /** `awaiting_daily_record_check`: today's record for the name given. */
  function RecordCheckTurn(env: Env, db: Db, input: string): (r: Outcome)
    ensures r.next.None? && r.db == db
    ensures r.reply.TodayRecord? <==> (input, env.today) in db.records
    ensures r.reply.TodayRecord? ==> r.reply.record == db.records[(input, env.today)]
    ensures !r.reply.TodayRecord? ==> r.reply == Say(RecordNotFound(input))
  {
    match GetDailyRecord(db, input, env.today)
    case Some(rec) => Outcome(None, db, TodayRecord(rec))
    case None => Outcome(None, db, Say(RecordNotFound(input)))
  }

  /** `float(nutrition_info.get(key, 0))`: a missing key reads as zero. */
  function LabelValue(env: Env, nutrition: map<string, string>, key: string): (r: Option<real>)
    ensures key !in nutrition ==> r == Some(0.0)
    ensures key in nutrition ==> r == env.parseFloat(nutrition[key])
  {
    if key in nutrition then env.parseFloat(nutrition[key]) else Some(0.0)
  }

  /** A per-kilogram label energy scaled to a gram amount. */
  function Scaled(energy: real, grams: real): (c: real)
    ensures c * 1000.0 == energy * grams
  {
    energy * (grams / 1000.0)
  }

  /** `reply` is the feeding report for a gram amount: the energy scaled,
      the percentages as the label gives them. */
  predicate Reports(env: Env, nutrition: map<string, string>, grams: real, reply: Reply)
    requires LabelValue(env, nutrition, "熱量").Some? && LabelValue(env, nutrition, "蛋白質").Some?
    requires LabelValue(env, nutrition, "脂肪").Some? && LabelValue(env, nutrition, "纖維").Some?
    requires LabelValue(env, nutrition, "碳水").Some? && LabelValue(env, nutrition, "水").Some?
  {
    && reply.FeedingReport?
    && reply.calories == Scaled(LabelValue(env, nutrition, "熱量").value, grams)
    && reply.protein == LabelValue(env, nutrition, "蛋白質").value
    && reply.fat == LabelValue(env, nutrition, "脂肪").value
    && reply.fiber == LabelValue(env, nutrition, "纖維").value
    && reply.carbs == LabelValue(env, nutrition, "碳水").value
    && reply.water == LabelValue(env, nutrition, "水").value
  }

  /** The feeding report for a gram amount: the label's energy (taken to be
      per 1000 g) scaled to the amount, the percentages as printed on the
      label. `None` where any conversion raises. */
  function Feeding(env: Env, nutrition: map<string, string>, grams: real): (r: Option<Reply>)
    ensures r.Some? <==>
      && LabelValue(env, nutrition, "熱量").Some? && LabelValue(env, nutrition, "蛋白質").Some?
      && LabelValue(env, nutrition, "脂肪").Some? && LabelValue(env, nutrition, "纖維").Some?
      && LabelValue(env, nutrition, "碳水").Some? && LabelValue(env, nutrition, "水").Some?
    ensures r.Some? ==> Reports(env, nutrition, grams, r.value)
  {
    var ratio := grams / 1000.0;
    var energy :- LabelValue(env, nutrition, "熱量");
    var protein :- LabelValue(env, nutrition, "蛋白質");
    var fat :- LabelValue(env, nutrition, "脂肪");
    var fiber :- LabelValue(env, nutrition, "纖維");
    var carbs :- LabelValue(env, nutrition, "碳水");
    var water :- LabelValue(env, nutrition, "水");
    Some(FeedingReport(energy * ratio, protein, fat, fiber, carbs, water))
  }

  /** The gram amount typed by the user, with an optional `克`. */
  function Grams(env: Env, input: string): Option<real> {
    env.parseFloat(RemoveAll(Strip(input), "克"))
  }

  /** `awaiting_feeding_weight`: the report or an error, and the session
      ends either way. */
  function FeedingWeightTurn(env: Env, db: Db, nutrition: map<string, string>, input: string): (r: Outcome)
    ensures r.next.None? && r.db == db
    ensures r.reply.FeedingReport? <==>
      Grams(env, input).Some? && Feeding(env, nutrition, Grams(env, input).value).Some?
    ensures r.reply.FeedingReport? ==> Reports(env, nutrition, Grams(env, input).value, r.reply)
    ensures !r.reply.FeedingReport? ==> r.reply == Say(GramsError)
  {
    match Grams(env, input)
    case None => Outcome(None, db, Say(GramsError))
    case Some(grams) =>
      match Feeding(env, nutrition, grams)
      case None => Outcome(None, db, Say(GramsError))
      case Some(report) => Outcome(None, db, report)
  }

  const CurrentLocation: string := "目前位置"
  const EnterLandmark: string := "輸入地標名稱"

  /** `awaiting_restaurant_choice`: search here and end the session, ask
      for a landmark, or re-prompt and keep the step. The search runs
      outside any `try` and before the session entry is deleted, so a search
      that raises sends nothing and leaves the step open. */
  function RestaurantChoiceTurn(env: Env, db: Db, input: string): (r: Outcome)
    ensures r.db == db
    ensures r.next.None? <==> input == CurrentLocation && env.currentLocationReply.Some?
    ensures r.next.None? ==> r.reply == Say(Relay(env.currentLocationReply.value))
    ensures input == CurrentLocation && env.currentLocationReply.None? ==>
      r.next == Some(AwaitingRestaurantChoice) && r.reply == Silent
    ensures r.next == Some(AwaitingLandmarkName) <==> input == EnterLandmark
    ensures r.next == Some(AwaitingLandmarkName) ==> r.reply == Say(AskLandmark)
    ensures input != CurrentLocation && input != EnterLandmark ==>
      r.next == Some(AwaitingRestaurantChoice) && r.reply == Say(AskChoice)
  {
    if input == CurrentLocation then
      match env.currentLocationReply
      case Some(text) => Outcome(None, db, Say(Relay(text)))
      case None => Outcome(Some(AwaitingRestaurantChoice), db, Silent)
    else if input == EnterLandmark then Outcome(Some(AwaitingLandmarkName), db, Say(AskLandmark))
    else Outcome(Some(AwaitingRestaurantChoice), db, Say(AskChoice))
  }

  /** `awaiting_landmark_name`: search around the named landmark and end the
      session; a search that raises sends nothing and keeps the step. */
  function LandmarkTurn(env: Env, db: Db, input: string): (r: Outcome)
    ensures r.db == db
    ensures r.next.None? <==> env.landmarkReply(input).Some?
    ensures r.next.None? ==> r.reply == Say(Relay(env.landmarkReply(input).value))
    ensures r.next.Some? ==> r.next == Some(AwaitingLandmarkName) && r.reply == Silent
  {
    match env.landmarkReply(input)
    case Some(text) => Outcome(None, db, Say(Relay(text)))
    case None => Outcome(Some(AwaitingLandmarkName), db, Silent)
  }

  /** The steps an idle command can lead to, directly or through later
      turns; the pet-info steps are not among them. */
  predicate EntryReachable(s: Step) {
    !(s.AwaitingDogInfo? || s.AwaitingSaveConfirmation? || s.AwaitingDogName?)
  }

  /** The step dispatch of `handle_text_message` for a user who has a
      session. Text sent while a photo is expected matches no branch: no
      reply, nothing changes. */
  function StepTurn(env: Env, step: Step, db: Db, input: string): (r: Outcome)
    ensures step.AwaitingPackageImage? || step.AwaitingFreshFoodImage? ==>
      r == Outcome(Some(step), db, Silent)
    ensures step.AwaitingDogInfo? ==> r == DogInfoTurn(env, db, input)
    ensures step.AwaitingSaveConfirmation? ==> r == SaveConfirmationTurn(db, step.pet, input)
    ensures step.AwaitingDogName? ==> r == DogNameTurn(env, db, input)
    ensures step.AwaitingNutritionInfo? ==> r == NutritionInfoTurn(env, db, input)
    ensures step.AwaitingBreedName? ==> r == BreedNameTurn(env, db, input)
    ensures step.AwaitingDailyRecord? ==> r == DailyRecordTurn(env, db, input)
    ensures step.AwaitingRecordConfirmation? ==> r == RecordConfirmationTurn(env, db, step.intake, input)
    ensures step.AwaitingDailyRecordCheck? ==> r == RecordCheckTurn(env, db, input)
    ensures step.AwaitingFeedingWeight? ==> r == FeedingWeightTurn(env, db, step.nutrition, input)
    ensures step.AwaitingRestaurantChoice? ==> r == RestaurantChoiceTurn(env, db, input)
    ensures step.AwaitingLandmarkName? ==> r == LandmarkTurn(env, db, input)
  {
    match step
    case AwaitingDogInfo => DogInfoTurn(env, db, input)
    case AwaitingSaveConfirmation(p) => SaveConfirmationTurn(db, p, input)
    case AwaitingDogName => DogNameTurn(env, db, input)
    case AwaitingNutritionInfo => NutritionInfoTurn(env, db, input)
    case AwaitingBreedName => BreedNameTurn(env, db, input)
    case AwaitingDailyRecord => DailyRecordTurn(env, db, input)
    case AwaitingRecordConfirmation(i) => RecordConfirmationTurn(env, db, i, input)
    case AwaitingDailyRecordCheck => RecordCheckTurn(env, db, input)
    case AwaitingFeedingWeight(nutrition) => FeedingWeightTurn(env, db, nutrition, input)
    case AwaitingRestaurantChoice => RestaurantChoiceTurn(env, db, input)
    case AwaitingLandmarkName => LandmarkTurn(env, db, input)
    case AwaitingPackageImage => Outcome(Some(step), db, Silent)
    case AwaitingFreshFoodImage => Outcome(Some(step), db, Silent)
  }

  /** What every step's transition keeps: only a `Y` to one of the two
      confirmations writes, only the pet confirmation writes pets, stored
      and cached birthdays stay valid, and no step leads into the pet-info
      steps unless it started there. */
  lemma StepTurnKeeps(env: Env, step: Step, db: Db, input: string)
    ensures var r := StepTurn(env, step, db, input);
      && (r.db != db ==> IsYes(input) && (step.AwaitingSaveConfirmation? || step.AwaitingRecordConfirmation?))
      && (!step.AwaitingSaveConfirmation? ==> r.db.pets == db.pets)
      && (BirthdaysValid(env, db) && StepValid(env, step) ==>
           BirthdaysValid(env, r.db) && (r.next.Some? ==> StepValid(env, r.next.value)))
      && (EntryReachable(step) && r.next.Some? ==> EntryReachable(r.next.value))
  {
  }

  // ---------------------------------------------------------------------
  // Idle routing.
  // ---------------------------------------------------------------------

  /** The idle commands that open a session, and the step each opens. */
  const EntryCommands: map<string, Step> := map[
    "33333" := AwaitingNutritionInfo,
    "2" := AwaitingBreedName,
    "66666" := AwaitingDailyRecord,
    "77777" := AwaitingDailyRecordCheck,
    "3" := AwaitingPackageImage,
    "4" := AwaitingFreshFoodImage,
    "10" := AwaitingRestaurantChoice,
    "友善餐廳" := AwaitingRestaurantChoice
  ]

  /** The idle commands answered without opening a session. */
  const InfoCommands: set<string> := {"新增寵物檔案", "狗狗檔案", "紀錄今日攝取", "1"}

  /** The keys of the session-opening command table, spelled out. */
  lemma EntryKeys(input: string)
    ensures input in EntryCommands <==>
      input == "33333" || input == "2" || input == "66666" || input == "77777" ||
      input == "3" || input == "4" || input == "10" || input == "友善餐廳"
  {
  }

  /** The command routing of a user without a session. */
  function IdleTurn(env: Env, db: Db, user: string, input: string): (r: Outcome)
    ensures r.db == db
    ensures r.next.Some? <==> input in EntryCommands
    ensures r.next.Some? ==> r.next.value == EntryCommands[input]
    ensures input !in EntryCommands && input !in InfoCommands ==> r.reply == Say(Welcome)
    ensures input == "新增寵物檔案" ==> r.reply == Say(CreateProfileLink(env.baseUrl, user))
    ensures input == "狗狗檔案" ==> r.reply == Say(ProfileListLink(env.baseUrl, user))
    ensures input == "紀錄今日攝取" ==> r.reply == Say(RecordIntakeLink(env.baseUrl, user))
    ensures input == "1" ==> r.reply == Say(ToxicFoods)
    ensures input == "33333" ==> r.next == Some(AwaitingNutritionInfo) && r.reply == Say(NutritionMenu)
    ensures input == "2" ==> r.next == Some(AwaitingBreedName) && r.reply == Say(AskBreed)
    ensures input == "66666" ==> r.next == Some(AwaitingDailyRecord) && r.reply == Say(DailyRecordPrompt)
    ensures input == "77777" ==> r.next == Some(AwaitingDailyRecordCheck) && r.reply == Say(RecordCheckPrompt)
    ensures input == "3" ==> r.next == Some(AwaitingPackageImage) && r.reply == Say(PackagePrompt)
    ensures input == "4" ==> r.next == Some(AwaitingFreshFoodImage) && r.reply == Say(FreshFoodPrompt)
    ensures input == "10" || input == "友善餐廳" ==>
      r.next == Some(AwaitingRestaurantChoice) && r.reply == Say(RestaurantPrompt)
  {
    EntryKeys(input);
    if input == "新增寵物檔案" then Outcome(None, db, Say(CreateProfileLink(env.baseUrl, user)))
    else if input == "狗狗檔案" then Outcome(None, db, Say(ProfileListLink(env.baseUrl, user)))
    else if input == "紀錄今日攝取" then Outcome(None, db, Say(RecordIntakeLink(env.baseUrl, user)))
    else if input == "33333" then Outcome(Some(AwaitingNutritionInfo), db, Say(NutritionMenu))
    else if input == "1" then Outcome(None, db, Say(ToxicFoods))
    else if input == "2" then Outcome(Some(AwaitingBreedName), db, Say(AskBreed))
    else if input == "66666" then Outcome(Some(AwaitingDailyRecord), db, Say(DailyRecordPrompt))
    else if input == "77777" then Outcome(Some(AwaitingDailyRecordCheck), db, Say(RecordCheckPrompt))
    else if input == "3" then Outcome(Some(AwaitingPackageImage), db, Say(PackagePrompt))
    else if input == "4" then Outcome(Some(AwaitingFreshFoodImage), db, Say(FreshFoodPrompt))
    else if input == "10" || input == "友善餐廳" then Outcome(Some(AwaitingRestaurantChoice), db, Say(RestaurantPrompt))
    else Outcome(None, db, Say(Welcome))
  }

  // ---------------------------------------------------------------------
  // Image turns.
  // ---------------------------------------------------------------------

  /** What the collaborators made of an uploaded image: either its content
      could not be fetched, or it was, and the label extraction returned a
      (possibly empty) field map or raised (`None`), and the food detector
      returned labels (its `None` return counts as no labels) or raised
      (`None`). Only the one the current step asks for is consulted. */
  datatype ImageInput =
    | FetchFailed
    | Fetched(extraction: Option<map<string, string>>, detection: Option<seq<string>>)

  datatype ImageOutcome = ImageOutcome(next: Option<Step>, reply: Reply)

  /** Deduplicated detector labels: empty labels dropped, the rest stripped
      and title-cased. */
  function Foods(env: Env, labels: seq<string>): (foods: set<string>)
    ensures forall f | f in foods :: exists l | l in labels :: l != "" && f == env.titleCase(Strip(l))
    ensures forall l | l in labels && l != "" :: env.titleCase(Strip(l)) in foods
  {
    set l | l in labels && l != "" :: env.titleCase(Strip(l))
  }

  /** `handle_image_message`. A package photo with a non-empty extraction
      moves to the gram question; an empty extraction or a failure keeps the
      step. A fresh-food photo always ends the session. In any other step
      the image gets no reply and changes nothing. */
  function ImageTurn(env: Env, step: Option<Step>, img: ImageInput): (r: ImageOutcome)
    ensures img.FetchFailed? ==> r == ImageOutcome(step, Say(ImageFetchFailed))
    ensures img.Fetched? && step == Some(AwaitingPackageImage) ==>
      match img.extraction
      case None => r.next == step && r.reply == Say(ImageError)
      case Some(nutrition) =>
        if |nutrition| > 0 then r.next == Some(AwaitingFeedingWeight(nutrition)) && r.reply == Say(AskGrams)
        else r.next == step && r.reply == Say(NoNutritionFound)
    ensures img.Fetched? && step == Some(AwaitingFreshFoodImage) ==>
      && r.next.None?
      && match img.detection
         case None => r.reply == Say(ImageError)
         case Some(labels) => r.reply == if |labels| > 0 then FoodReport(Foods(env, labels)) else Say(NoFoodFound)
    ensures img.Fetched? && step != Some(AwaitingPackageImage) && step != Some(AwaitingFreshFoodImage) ==>
      r == ImageOutcome(step, Silent)
    ensures r.next.Some? && r.next != step ==> step == Some(AwaitingPackageImage) && r.next.value.AwaitingFeedingWeight?
  {
    match img
    case FetchFailed => ImageOutcome(step, Say(ImageFetchFailed))
    case Fetched(extraction, detection) =>
      if step == Some(AwaitingPackageImage) then
        match extraction
        case None => ImageOutcome(step, Say(ImageError))
        case Some(nutrition) =>
          if |nutrition| > 0 then ImageOutcome(Some(AwaitingFeedingWeight(nutrition)), Say(AskGrams))
          else ImageOutcome(step, Say(NoNutritionFound))
      else if step == Some(AwaitingFreshFoodImage) then
        match detection
        case None => ImageOutcome(None, Say(ImageError))
        case Some(labels) =>
          if |labels| > 0 then ImageOutcome(None, FoodReport(Foods(env, labels)))
          else ImageOutcome(None, Say(NoFoodFound))
      else ImageOutcome(step, Silent)
  }
}
