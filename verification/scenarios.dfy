/** Properties that span several turns or operations. */
module Scenarios {
  import opened Wrappers
  import opened Text
  import opened Environment
  import opened ProfileStore
  import opened DailyCalories
  import opened ChatParsing
  import opened Session
  import opened WebForms
  import opened Bot
  import Messages

  /** A pet-info message with plain fields moves to the confirmation step
      with exactly those fields, and `Y` then stores them with no breed and
      no status. */
  lemma PetInfoThenYes(env: Env, db: Db, keys: (string, string, string), name: string,
                       birthday: string, weight: string, w: real)
    requires PlainLabel(keys.0) && PlainLabel(keys.1) && PlainLabel(keys.2)
    requires PlainValue(name) && PlainValue(birthday) && PlainValue(weight) && '公' !in weight
    requires env.parseFloat(weight) == Some(w) && env.validDate(birthday)
    ensures var asked := DogInfoTurn(env, db, PetInfoMessage(keys, name, birthday, weight));
      && asked.next == Some(AwaitingSaveConfirmation(PendingPet(name, birthday, w)))
      && var saved := SaveConfirmationTurn(asked.db, asked.next.value.pet, "Y");
      && name in saved.db.pets && saved.db.pets[name] == Pet(birthday, w, None, None)
      && saved.next.None?
  {
    var msg := PetInfoMessage(keys, name, birthday, weight);
    var pet := PendingPet(name, birthday, w);
    PetInfoRoundTrip(env, keys, name, birthday, weight, w);
    assert ParsePetInfo(env, msg) == Some(pet);
    var asked := DogInfoTurn(env, db, msg);
    assert asked.next == Some(AwaitingSaveConfirmation(pet));
    var saved := SaveConfirmationTurn(db, pet, "Y");
    assert IsYes("Y");
    assert PetWritten(db, saved.db, name, Pet(birthday, w, None, None));
  }

  /** A daily-record message with plain fields moves to the confirmation
      step, and `Y` then stores the truncated values under today's date, or
      sends nothing and keeps the step when one does not fit SQLite's
      integers. */
  lemma DailyRecordThenYes(env: Env, db: Db, keys: (string, string, string), name: string,
                           calories: string, water: string, c: real, w: real)
    requires PlainLabel(keys.0) && PlainLabel(keys.1) && PlainLabel(keys.2)
    requires PlainValue(name) && PlainValue(calories) && PlainValue(water)
    requires '卡' !in calories && '毫' !in water
    requires env.parseFloat(calories) == Some(c) && env.parseFloat(water) == Some(w)
    ensures var asked := DailyRecordTurn(env, db, DailyRecordMessage(keys, name, calories, water));
      && asked.next == Some(AwaitingRecordConfirmation(PendingIntake(name, c, w)))
      && var saved := RecordConfirmationTurn(env, asked.db, asked.next.value.intake, "Y");
      && (FitsInt64(Trunc(c)) && FitsInt64(Trunc(w)) ==>
           saved.next.None? && saved.db.records[(name, env.today)] == Intake(NearestDouble(Trunc(c)), NearestDouble(Trunc(w))))
      && (!FitsInt64(Trunc(c)) || !FitsInt64(Trunc(w)) ==> saved.next == asked.next && saved.reply == Silent)
  {
    DailyRecordRoundTrip(env, keys, name, calories, water, c, w);
    assert IsYes("Y");
  }

  /** The same exchange through the text handler from an idle user:
      `66666` opens the step, a record message that parses is cached, and
      `Y` saves it and closes the session. `RecordMessageAccepted` shows
      the messages built by `DailyRecordMessage` qualify. */
  lemma DailyRecordThroughChat(env: Env, w: World, user: UserId, msg: string, intake: PendingIntake)
    requires StepOf(w, user).None?
    requires Strip(msg) == msg && msg != Exit && ParseDailyRecord(env, msg) == Some(intake)
    ensures var started := HandleText(env, w, user, "66666");
      var asked := HandleText(env, started.world, user, msg);
      var saved := HandleText(env, asked.world, user, "Y");
      && StepOf(started.world, user) == Some(AwaitingDailyRecord) && started.reply == Say(Messages.DailyRecordPrompt)
      && StepOf(asked.world, user) == Some(AwaitingRecordConfirmation(intake))
      && asked.reply == ConfirmRecord(intake.calories, intake.water)
      && (FitsInt64(Trunc(intake.calories)) && FitsInt64(Trunc(intake.water)) ==>
           && StepOf(saved.world, user).None? && saved.reply == Say(Messages.RecordSaved)
           && GetDailyRecord(DbOf(saved.world, user), intake.name, env.today)
              == Some(Intake(NearestDouble(Trunc(intake.calories)), NearestDouble(Trunc(intake.water)))))
  {
    StrippedCommands();
    var started := HandleText(env, w, user, "66666");
    assert StepOf(started.world, user) == Some(AwaitingDailyRecord);
    RecordAsked(env, started.world, user, msg, intake);
    var asked := HandleText(env, started.world, user, msg);
    RecordConfirmed(env, asked.world, user, intake);
  }

  /** A daily-record message with plain fields, whose first key does not
      start with whitespace, survives the handler's `strip()`, is not the
      exit command, and parses to its fields. */
  lemma RecordMessageAccepted(env: Env, keys: (string, string, string), name: string,
                              calories: string, water: string, c: real, w: real)
    requires PlainLabel(keys.0) && PlainLabel(keys.1) && PlainLabel(keys.2)
    requires keys.0 == [] || !IsSpace(keys.0[0])
    requires PlainValue(name) && PlainValue(calories) && PlainValue(water)
    requires '卡' !in calories && '毫' !in water
    requires env.parseFloat(calories) == Some(c) && env.parseFloat(water) == Some(w)
    ensures var msg := DailyRecordMessage(keys, name, calories, water);
      Strip(msg) == msg && msg != Exit && ParseDailyRecord(env, msg) == Some(PendingIntake(name, c, w))
  {
    var msg := DailyRecordMessage(keys, name, calories, water);
    RecordMessageStripped(keys, name, calories, water);
    assert |msg| > |Exit|;
    DailyRecordRoundTrip(env, keys, name, calories, water, c, w);
  }

  /** In `awaiting_daily_record`, a message that parses is cached for
      confirmation and echoed. */
  lemma RecordAsked(env: Env, w: World, user: UserId, msg: string, intake: PendingIntake)
    requires StepOf(w, user) == Some(AwaitingDailyRecord)
    requires Strip(msg) == msg && msg != Exit
    requires ParseDailyRecord(env, msg) == Some(intake)
    ensures var asked := HandleText(env, w, user, msg);
      && StepOf(asked.world, user) == Some(AwaitingRecordConfirmation(intake))
      && asked.reply == ConfirmRecord(intake.calories, intake.water)
  {
    var asked := HandleText(env, w, user, msg);
    var o := StepTurn(env, AwaitingDailyRecord, DbOf(w, user), msg);
    assert StepOf(asked.world, user) == o.next && asked.reply == o.reply;
    assert o == DailyRecordTurn(env, DbOf(w, user), msg);
    assert o.next == Some(AwaitingRecordConfirmation(intake));
  }

  /** In `awaiting_record_confirmation`, `Y` saves the cached record and
      ends the session when its values fit SQLite's integers. */
  lemma RecordConfirmed(env: Env, w: World, user: UserId, intake: PendingIntake)
    requires StepOf(w, user) == Some(AwaitingRecordConfirmation(intake))
    ensures var saved := HandleText(env, w, user, "Y");
      FitsInt64(Trunc(intake.calories)) && FitsInt64(Trunc(intake.water)) ==>
        && StepOf(saved.world, user).None? && saved.reply == Say(Messages.RecordSaved)
        && GetDailyRecord(DbOf(saved.world, user), intake.name, env.today)
           == Some(Intake(NearestDouble(Trunc(intake.calories)), NearestDouble(Trunc(intake.water))))
  {
    StrippedCommands();
    assert IsYes("Y") && Exit != "Y";
    var saved := HandleText(env, w, user, "Y");
    var o := StepTurn(env, AwaitingRecordConfirmation(intake), DbOf(w, user), "Y");
    assert StepOf(saved.world, user) == o.next && DbOf(saved.world, user) == o.db && saved.reply == o.reply;
    assert o == RecordConfirmationTurn(env, DbOf(w, user), intake, "Y");
  }

  /** The commands used above carry no surrounding whitespace. */
  lemma StrippedCommands()
    ensures Strip("66666") == "66666" && Strip("Y") == "Y"
  {
    assert IsStripped("66666");
    assert IsStripped("Y");
  }

  /** A daily-record message whose first key does not start with
      whitespace is left alone by the handler's `strip()`. */
  lemma RecordMessageStripped(keys: (string, string, string), name: string, calories: string, water: string)
    requires keys.0 == [] || !IsSpace(keys.0[0])
    ensures var msg := DailyRecordMessage(keys, name, calories, water);
      Strip(msg) == msg
  {
    var msg := DailyRecordMessage(keys, name, calories, water);
    assert msg[0] == (keys.0 + [Colon])[0];
    assert msg[|msg| - 1] == '升';
    assert IsStripped(msg);
  }

  /** Confirming two chat records for the same dog on the same day keeps
      only the second: the chat overwrites. */
  lemma ChatRecordOverwrites(env: Env, db: Db, name: string)
    ensures var first := RecordConfirmationTurn(env, db, PendingIntake(name, 100.0, 200.0), "Y").db;
      var second := RecordConfirmationTurn(env, first, PendingIntake(name, 50.0, 80.0), "Y").db;
      second.records[(name, env.today)] == Intake(50, 80)
  {
    assert IsYes("Y");
  }

  /** A chat record of 2^53 + 1 calories reads back as 2^53: the `REAL`
      column keeps the nearest double, and on the tie the even one. */
  lemma LargeRecordRounded(env: Env, db: Db, name: string)
    ensures var saved := RecordConfirmationTurn(env, db, PendingIntake(name, 9007199254740993.0, 0.0), "Y").db;
      saved.records[(name, env.today)].calories == 9007199254740992
  {
    var n := 9007199254740993;
    assert Trunc(n as real) == n;
    assert Exponent(n) == 1;
    assert Spacing(n) == 2;
    assert IsYes("Y");
  }

  /** Two web-form entries for the same dog on the same day add up: the web
      form accumulates. */
  lemma WebIntakeAccumulates(db: Db, name: string, date: string)
    requires (name, date) !in db.records
    ensures var first := Accumulate(db, name, date, 100, 200);
      && first.Some?
      && var second := Accumulate(first.value, name, date, 50, 80);
      && second.Some? && second.value.records[(name, date)] == Intake(150, 280)
  {
  }

  /** A pet saved through the chat gets targets for status "3" from its
      saved weight and the interval (1.4, 1.6). */
  lemma SavedPetTargets(env: Env, db: Db, p: PendingPet)
    ensures var saved := SaveConfirmationTurn(db, p, "Y").db;
      var reply := NutritionAnswer(env, saved, (p.name, "3"));
      && reply.NutritionTargets? && reply.weight == p.weight
      && reply.targets.rer == 70.0 * env.pow34(p.weight)
      && reply.targets.derMin == 1.4 * reply.targets.rer
      && reply.targets.derMax == 1.6 * reply.targets.rer
  {
    assert StatusCodes[2] == "3";
    assert GetAfForStatus("3") == AfTable[2] == (1.4, 1.6);
  }

  /** A pet saved through the chat has no breed or status, so its profile
      shows neither. */
  lemma SavedPetProfile(env: Env, db: Db, p: PendingPet)
    ensures var saved := SaveConfirmationTurn(db, p, "Y").db;
      var shown := DogNameTurn(env, saved, p.name).reply;
      shown.Profile? && !shown.showsBreedAndStatus
  {
  }

  /** A status code outside "1".."13" is rejected even for a known dog, and
      nothing is written. */
  lemma UnknownStatusRejected(env: Env, db: Db, name: string)
    ensures NutritionAnswer(env, db, (name, "99")) == Say(Messages.StatusRangeError)
    ensures NutritionAnswer(env, db, (name, "0")) == Say(Messages.StatusRangeError)
  {
  }

  /** A stored weight of zero or less still yields targets: nothing guards
      the calculator. */
  lemma NonPositiveWeightAnswered(env: Env, db: Db, name: string, status: string)
    requires name in db.pets && db.pets[name].weight <= 0.0
    requires status in StatusCodes
    ensures NutritionAnswer(env, db, (name, status)).NutritionTargets?
  {
  }

  /** `退出` in the middle of any step clears it, so the next message is
      routed as an idle command. */
  lemma ExitThenCommand(env: Env, w: World, user: UserId, command: string)
    requires Strip(command) != Exit
    ensures var cleared := HandleText(env, w, user, Exit).world;
      var after := HandleText(env, cleared, user, command).world;
      && StepOf(cleared, user).None?
      && (StepOf(after, user).Some? <==> Strip(command) in EntryCommands)
  {
    ExitIsStripped();
    var cleared := HandleText(env, w, user, Exit).world;
    assert StepOf(cleared, user).None?;
  }

  /** The exit command carries no surrounding whitespace. */
  lemma ExitIsStripped()
    ensures Strip(Exit) == Exit
  {
    assert IsStripped(Exit) by {
      assert !IsSpace(Exit[0]) && !IsSpace(Exit[|Exit| - 1]);
    }
  }

  /** Renaming a dog in the edit form keeps a row under the old name. */
  lemma RenameKeepsOldName(env: Env, db: Db, previous: string, form: PetForm)
    requires previous in db.pets && form.name != previous
    ensures var r := EditDogProfile(env, db, previous, form);
      !r.Rejected? ==> previous in r.db.pets
  {
  }
}
