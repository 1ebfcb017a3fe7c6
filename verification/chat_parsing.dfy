/** The chat's multi-line input format: one field per line, in a fixed
    order, each value taken as `line.split('：')[1].strip()` — the text after
    the first full-width colon up to the next one, stripped. A missing line
    or a missing colon is an error, as is a number `float()` rejects or a
    date `strptime` rejects. The keys before the colons are never checked. */
module ChatParsing {
  import opened Wrappers
  import opened Text
  import opened Environment

  const Colon: char := '：'
  const Newline: char := '\n'

  /** `line.split('：')[1].strip()`, `None` where Python raises
      `IndexError`. */
  function Field(line: string): (r: Option<string>)
    ensures r.Some? <==> Colon in line
    ensures r.Some? ==> IsStripped(r.value) && Colon !in r.value
  {
    var parts := Split(line, Colon);
    if |parts| < 2 then None else Some(Strip(parts[1]))
  }

  /** `user_input.split('\n')`. */
  function Lines(text: string): (lines: seq<string>)
    ensures |lines| >= 1
    ensures forall k | 0 <= k < |lines| :: Newline !in lines[k]
    ensures Join(lines, Newline) == text
  {
    Split(text, Newline)
  }

  /** `float(text.strip().replace(unit, '').strip())` for a field value
      already stripped. */
  function Number(env: Env, value: string, unit: string): Option<real>
    requires |unit| > 0
  {
    env.parseFloat(Strip(RemoveAll(value, unit)))
  }

  /** The pet cached while the user confirms it. */
  datatype PendingPet = PendingPet(name: string, birthday: string, weight: real)

  /** Line 1 name, line 2 birthday, line 3 weight with an optional `公斤`. */
  function ParsePetInfo(env: Env, text: string): (r: Option<PendingPet>)
    ensures r.Some? <==>
      var lines := Lines(text);
      && |lines| >= 3
      && Colon in lines[0] && Colon in lines[1] && Colon in lines[2]
      && Number(env, Field(lines[2]).value, "公斤").Some?
      && env.validDate(Field(lines[1]).value)
    ensures r.Some? ==>
      var lines := Lines(text);
      r.value == PendingPet(Field(lines[0]).value, Field(lines[1]).value,
                            Number(env, Field(lines[2]).value, "公斤").value)
    ensures r.Some? ==>
      && env.validDate(r.value.birthday)
      && IsStripped(r.value.name) && Colon !in r.value.name && Newline !in r.value.name
  {
    PetOfLines(env, Lines(text))
  }

  /** The pet-info rule applied to the lines of a message. */
  function PetOfLines(env: Env, lines: seq<string>): Option<PendingPet> {
    if |lines| < 3 then None
    else
      var name :- Field(lines[0]);
      var birthday :- Field(lines[1]);
      var weightText :- Field(lines[2]);
      var weight :- Number(env, weightText, "公斤");
      if !env.validDate(birthday) then None
      else Some(PendingPet(name, birthday, weight))
  }

  /** Line 1 name, line 2 status code. */
  function ParseNutritionRequest(text: string): (r: Option<(string, string)>)
    ensures r.Some? <==>
      var lines := Lines(text);
      |lines| >= 2 && Colon in lines[0] && Colon in lines[1]
    ensures r.Some? ==> r.value == (Field(Lines(text)[0]).value, Field(Lines(text)[1]).value)
    ensures r.Some? ==> IsStripped(r.value.1) && Colon !in r.value.1
  {
    RequestOfLines(Lines(text))
  }

  /** The nutrition-request rule applied to the lines of a message. */
  function RequestOfLines(lines: seq<string>): Option<(string, string)> {
    if |lines| < 2 then None
    else
      var name :- Field(lines[0]);
      var status :- Field(lines[1]);
      Some((name, status))
  }

  /** The record cached while the user confirms it. */
  datatype PendingIntake = PendingIntake(name: string, calories: real, water: real)

  /** Line 1 name, line 2 calories with an optional `卡路里`, line 3 water
      with an optional `毫升`. */
  function ParseDailyRecord(env: Env, text: string): (r: Option<PendingIntake>)
    ensures r.Some? <==>
      var lines := Lines(text);
      && |lines| >= 3
      && Colon in lines[0] && Colon in lines[1] && Colon in lines[2]
      && Number(env, Field(lines[1]).value, "卡路里").Some?
      && Number(env, Field(lines[2]).value, "毫升").Some?
    ensures r.Some? ==>
      var lines := Lines(text);
      r.value == PendingIntake(Field(lines[0]).value, Number(env, Field(lines[1]).value, "卡路里").value,
                               Number(env, Field(lines[2]).value, "毫升").value)
  {
    RecordOfLines(env, Lines(text))
  }

  /** The daily-record rule applied to the lines of a message. */
  function RecordOfLines(env: Env, lines: seq<string>): Option<PendingIntake> {
    if |lines| < 3 then None
    else
      var name :- Field(lines[0]);
      var caloriesText :- Field(lines[1]);
      var waterText :- Field(lines[2]);
      var calories :- Number(env, caloriesText, "卡路里");
      var water :- Number(env, waterText, "毫升");
      Some(PendingIntake(name, calories, water))
  }

  // ---------------------------------------------------------------------
  // Round trips: a well-formed message parses back to its fields.
  // ---------------------------------------------------------------------

  /** A value that survives the field rule unchanged. */
  predicate PlainValue(v: string) {
    v != [] && IsStripped(v) && Colon !in v && Newline !in v
  }

  /** A key that ends at the first colon of its line. */
  predicate PlainLabel(l: string) {
    Colon !in l && Newline !in l
  }

  /** The field rule takes the text after the first colon up to the next
      colon (or the end of the line), stripped. */
  lemma FieldOfLabelled(key: string, value: string, rest: string)
    requires Colon !in key && Colon !in value
    requires rest == [] || rest[0] == Colon
    ensures Field(key + [Colon] + value + rest) == Some(Strip(value))
  {
    var line := key + [Colon] + value + rest;
    var tail := if rest == [] then [] else Split(rest[1..], Colon);
    var parts := [key, value] + tail;
    forall k | 0 <= k < |parts| ensures Colon !in parts[k] {
      if k >= 2 { assert parts[k] == tail[k - 2]; }
    }
    if rest == [] {
      assert Join(parts, Colon) == key + [Colon] + value by {
        assert parts == [key, value];
        assert parts[1..] == [value];
      }
      assert line == key + [Colon] + value;
    } else {
      assert rest == [Colon] + rest[1..];
      assert Join(parts[1..], Colon) == value + [Colon] + rest[1..] by {
        assert parts[1..][1..] == tail;
      }
      assert Join(parts, Colon) == key + [Colon] + (value + [Colon] + rest[1..]);
    }
    assert Join(parts, Colon) == line;
    SplitJoin(parts, Colon);
  }

  /** Three lines joined by newlines split back into those lines. */
  lemma ThreeLines(a: string, b: string, c: string)
    requires Newline !in a && Newline !in b && Newline !in c
    ensures Lines(a + [Newline] + b + [Newline] + c) == [a, b, c]
  {
    var parts := [a, b, c];
    assert parts[1..] == [b, c];
    assert [b, c][1..] == [c];
    assert Join([b, c], Newline) == b + [Newline] + c;
    assert Join(parts, Newline) == a + [Newline] + (b + [Newline] + c);
    assert a + [Newline] + b + [Newline] + c == a + [Newline] + (b + [Newline] + c);
    SplitJoin(parts, Newline);
  }

  /** Two lines joined by a newline split back into those lines. */
  lemma TwoLines(a: string, b: string)
    requires Newline !in a && Newline !in b
    ensures Lines(a + [Newline] + b) == [a, b]
  {
    assert [a, b][1..] == [b];
    assert Join([a, b], Newline) == a + [Newline] + b;
    SplitJoin([a, b], Newline);
  }

  /** A plain value after a plain key is read back as it is. */
  lemma PlainField(key: string, value: string)
    requires PlainLabel(key) && PlainValue(value)
    ensures Field(key + [Colon] + value) == Some(value)
    ensures Newline !in key + [Colon] + value
  {
    FieldOfLabelled(key, value, []);
    assert key + [Colon] + value + [] == key + [Colon] + value;
  }

  /** The unit suffixes are plain values in their own right. */
  lemma UnitsArePlain()
    ensures PlainValue("公斤") && "公斤"[0] == '公'
    ensures PlainValue("卡路里") && "卡路里"[0] == '卡'
    ensures PlainValue("毫升") && "毫升"[0] == '毫'
  {
  }

  /** A plain value followed by its unit: the field keeps the unit and
      `Number` drops it again. */
  lemma FieldWithUnit(env: Env, key: string, value: string, unit: string)
    requires PlainLabel(key) && PlainValue(value) && PlainValue(unit) && unit[0] !in value
    ensures Field(key + [Colon] + value + unit) == Some(value + unit)
    ensures Number(env, value + unit, unit) == env.parseFloat(value)
    ensures Newline !in key + [Colon] + value + unit
  {
    var vu := value + unit;
    PlainConcat(value, unit);
    PlainField(key, vu);
    assert key + [Colon] + value + unit == key + [Colon] + vu;
    RemoveAllSuffix(value, unit);
    assert Strip(value) == value;
  }

  /** Two plain values written together form a plain value. */
  lemma PlainConcat(a: string, b: string)
    requires PlainValue(a) && PlainValue(b)
    ensures PlainValue(a + b)
  {
    var ab := a + b;
    assert ab[0] == a[0];
    assert ab[|ab| - 1] == b[|b| - 1];
    assert forall c | c in ab :: c in a || c in b;
  }

  /** The message the bot asks for:
      `<key>：<name>\n<key>：<birthday>\n<key>：<weight>公斤`. */
  function PetInfoMessage(keys: (string, string, string), name: string, birthday: string, weight: string): string {
    (keys.0 + [Colon] + name) + [Newline] + (keys.1 + [Colon] + birthday) + [Newline]
      + (keys.2 + [Colon] + weight + "公斤")
  }

  /** A well-formed pet message parses to its name, birthday and weight. */
  lemma PetInfoRoundTrip(env: Env, keys: (string, string, string), name: string, birthday: string,
                         weight: string, w: real)
    requires PlainLabel(keys.0) && PlainLabel(keys.1) && PlainLabel(keys.2)
    requires PlainValue(name) && PlainValue(birthday) && PlainValue(weight) && '公' !in weight
    requires env.parseFloat(weight) == Some(w) && env.validDate(birthday)
    ensures ParsePetInfo(env, PetInfoMessage(keys, name, birthday, weight)) == Some(PendingPet(name, birthday, w))
  {
    var l0 := keys.0 + [Colon] + name;
    var l1 := keys.1 + [Colon] + birthday;
    var l2 := keys.2 + [Colon] + weight + "公斤";
    UnitsArePlain();
    PlainField(keys.0, name);
    PlainField(keys.1, birthday);
    FieldWithUnit(env, keys.2, weight, "公斤");
    ThreeLines(l0, l1, l2);
    assert ParsePetInfo(env, PetInfoMessage(keys, name, birthday, weight)) == PetOfLines(env, [l0, l1, l2]);
  }

  /** The nutrition request: `<key>：<name>\n<key>：<status>`. */
  function NutritionMessage(keys: (string, string), name: string, status: string): string {
    (keys.0 + [Colon] + name) + [Newline] + (keys.1 + [Colon] + status)
  }

  /** A well-formed nutrition request parses to its name and status code. */
  lemma NutritionRoundTrip(keys: (string, string), name: string, status: string)
    requires PlainLabel(keys.0) && PlainLabel(keys.1)
    requires PlainValue(name) && PlainValue(status)
    ensures ParseNutritionRequest(NutritionMessage(keys, name, status)) == Some((name, status))
  {
    var l0 := keys.0 + [Colon] + name;
    var l1 := keys.1 + [Colon] + status;
    PlainField(keys.0, name);
    PlainField(keys.1, status);
    TwoLines(l0, l1);
    assert ParseNutritionRequest(NutritionMessage(keys, name, status)) == RequestOfLines([l0, l1]);
  }

  /** The daily-record message:
      `<key>：<name>\n<key>：<calories>卡路里\n<key>：<water>毫升`. */
  function DailyRecordMessage(keys: (string, string, string), name: string, calories: string, water: string): string {
    (keys.0 + [Colon] + name) + [Newline] + (keys.1 + [Colon] + calories + "卡路里") + [Newline]
      + (keys.2 + [Colon] + water + "毫升")
  }

  /** A well-formed daily-record message parses to its name and amounts. */
  lemma DailyRecordRoundTrip(env: Env, keys: (string, string, string), name: string,
                             calories: string, water: string, c: real, w: real)
    requires PlainLabel(keys.0) && PlainLabel(keys.1) && PlainLabel(keys.2)
    requires PlainValue(name) && PlainValue(calories) && PlainValue(water)
    requires '卡' !in calories && '毫' !in water
    requires env.parseFloat(calories) == Some(c) && env.parseFloat(water) == Some(w)
    ensures ParseDailyRecord(env, DailyRecordMessage(keys, name, calories, water)) == Some(PendingIntake(name, c, w))
  {
    var l0 := keys.0 + [Colon] + name;
    var l1 := keys.1 + [Colon] + calories + "卡路里";
    var l2 := keys.2 + [Colon] + water + "毫升";
    UnitsArePlain();
    PlainField(keys.0, name);
    FieldWithUnit(env, keys.1, calories, "卡路里");
    FieldWithUnit(env, keys.2, water, "毫升");
    var msg := DailyRecordMessage(keys, name, calories, water);
    assert msg == l0 + [Newline] + l1 + [Newline] + l2;
    ThreeLines(l0, l1, l2);
    assert ParseDailyRecord(env, msg) == RecordOfLines(env, [l0, l1, l2]);
  }
}
