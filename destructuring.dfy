/** Reading nested fields into a template string (`getUserInfo`), taking an
    array apart into its head and the rest (`getFirstAndRest`), and merging
    updates into a new record (`updateUser`). */
module Destructuring {
  import opened Wrappers
  import opened JsValues
  import Decimal

  // Stand for the TypeErrors the engine throws; their wording is not modelled.
  const USER_MISSING: string := "TypeError: cannot destructure the user"
  const PROFILE_MISSING: string := "TypeError: cannot destructure 'profile' of the user"

  /** `({ name, email, profile: { age } }) => `${name} (${age}) - ${email}``.
      Destructuring an undefined or null argument throws, and so does
      destructuring `age` out of an undefined or null profile. Any other
      value is read through its own properties; a number, boolean or string
      has no `profile`, so it fails on the profile. */
  function GetUserInfo(user: Value): (r: Result<string, string>)
    ensures r.Err? <==>
      user.Undefined? || user.Null? ||
      Get(OwnFields(user), "profile").Undefined? || Get(OwnFields(user), "profile").Null?
    ensures r.Err? ==> r.error == (if user.Undefined? || user.Null? then USER_MISSING else PROFILE_MISSING)
  {
    if user.Undefined? || user.Null? then Err(USER_MISSING)
    else
      var fields := OwnFields(user);
      var profile := Get(fields, "profile");
      if profile.Undefined? || profile.Null? then Err(PROFILE_MISSING)
      else
        var age := Get(OwnFields(profile), "age");
        Ok(TemplateText(Get(fields, "name")) + " (" + TemplateText(age) + ") - " + TemplateText(Get(fields, "email")))
  }

  /** For a user object with a profile, the text begins with the name and
      " (", ends with ") - " and the email, and between them is the age's
      template text. */
  lemma GetUserInfoParts(fields: Record)
    requires !Get(fields, "profile").Undefined? && !Get(fields, "profile").Null?
    ensures GetUserInfo(Obj(fields)).Ok?
    ensures
      var text := GetUserInfo(Obj(fields)).value;
      var name := TemplateText(Get(fields, "name"));
      var email := TemplateText(Get(fields, "email"));
      var age := TemplateText(Get(OwnFields(Get(fields, "profile")), "age"));
      && |text| == |name| + |age| + |email| + 6
      && text[..|name| + 2] == name + " ("
      && text[|name| + 2..|name| + 2 + |age|] == age
      && text[|text| - |email| - 4..] == ") - " + email
  {
    var text := GetUserInfo(Obj(fields)).value;
    var name := TemplateText(Get(fields, "name"));
    var email := TemplateText(Get(fields, "email"));
    var age := TemplateText(Get(OwnFields(Get(fields, "profile")), "age"));
    assert text == (name + " (") + age + (") - " + email);
  }

  /** An integral age appears in the text as decimal digits (after a "-"
      for a negative age) that read back as that age. */
  lemma GetUserInfoAge(fields: Record, age: int)
    requires Get(fields, "profile").Obj? && Get(Get(fields, "profile").fields, "age") == Num(age)
    ensures GetUserInfo(Obj(fields)).Ok?
    ensures
      var text := GetUserInfo(Obj(fields)).value;
      var name := TemplateText(Get(fields, "name"));
      var email := TemplateText(Get(fields, "email"));
      && |text| > |name| + |email| + 6
      && Decimal.IsDecimalOf(text[|name| + 2..|text| - |email| - 4], age)
  {
    GetUserInfoParts(fields);
    var text := GetUserInfo(Obj(fields)).value;
    var name := TemplateText(Get(fields, "name"));
    var email := TemplateText(Get(fields, "email"));
    var ageText := TemplateText(Get(OwnFields(Get(fields, "profile")), "age"));
    assert ageText == TemplateText(Num(age));
    TemplateTextOfNumber(age);
    assert |text| - |email| - 4 == |name| + 2 + |ageText|;
  }

  lemma GetUserInfoExample()
    ensures GetUserInfo(Obj(map[
      "name" := Str("Will"),
      "email" := Str("will@example.com"),
      "profile" := Obj(map["age" := Num(35)])])) == Ok("Will (35) - will@example.com")
  {
    var profile := map["age" := Num(35)];
    var user := map["name" := Str("Will"), "email" := Str("will@example.com"), "profile" := Obj(profile)];
    ThirtyFiveText();
    var text := "Will" + " (" + "35" + ") - " + "will@example.com";
    assert text == "Will (35) - will@example.com";
    assert Get(user, "profile") == Obj(profile);
    assert Get(OwnFields(Obj(profile)), "age") == Num(35);
    assert GetUserInfo(Obj(user)) == Ok(text);
  }

  lemma ThirtyFiveText()
    ensures TemplateText(Num(35)) == "35"
  {
    assert Decimal.NatToString(3) == "3";
    assert Decimal.NatToString(35) == "35";
  }

  /** Destructuring an undefined argument, or a user without a profile,
      throws. */
  lemma GetUserInfoMissingProfile(name: Value)
    ensures GetUserInfo(Undefined) == Err(USER_MISSING)
    ensures GetUserInfo(Obj(map["name" := name])) == Err(PROFILE_MISSING)
  {
    assert Get(map["name" := name], "profile") == Undefined;
  }

  /** `{ first, rest }` of `[first, ...rest]`. */
  datatype FirstAndRest = FirstAndRest(first: Value, rest: seq<Value>)

  /** The argument of `getFirstAndRest`: an array, or any other value. */
  datatype ListArg = Array(items: seq<Value>) | Other(v: Value)

  // Stands for the TypeError the engine throws; its wording is not modelled.
  const NOT_ITERABLE: string := "TypeError: the argument is not iterable"

  /** The characters of a string, each as a one-character string. */
  function Characters(s: string): (chars: seq<Value>)
    ensures |chars| == |s|
    ensures forall i :: 0 <= i < |s| ==> chars[i] == Str([s[i]])
  {
    seq(|s|, i requires 0 <= i < |s| => Str([s[i]]))
  }

  /** What iterating `arg` yields: an array its elements, a string its
      characters. Undefined, null, numbers, booleans and plain objects have
      no iterator. */
  function Iterate(arg: ListArg): Option<seq<Value>> {
    match arg
    case Array(items) => Some(items)
    case Other(v) => if v.Str? then Some(Characters(v.s)) else None
  }

  /** `([first, ...rest]) => ({ first, rest })`: throws when the argument is
      not iterable; otherwise `first` is the first value iterated (undefined
      when there is none) and `rest` the values after it. */
  function GetFirstAndRest(arg: ListArg): (r: Result<FirstAndRest, string>)
    ensures r.Err? <==> arg.Other? && !arg.v.Str?
    ensures r.Err? ==> r.error == NOT_ITERABLE
    ensures r.Ok? && |Iterate(arg).value| > 0 ==> [r.value.first] + r.value.rest == Iterate(arg).value
    ensures r.Ok? && |Iterate(arg).value| > 0 ==> |r.value.rest| == |Iterate(arg).value| - 1
    ensures r.Ok? && Iterate(arg).value == [] ==> r.value.first == Undefined && r.value.rest == []
  {
    match Iterate(arg)
    case None => Err(NOT_ITERABLE)
    case Some(list) =>
      if list == [] then Ok(FirstAndRest(Undefined, [])) else Ok(FirstAndRest(list[0], list[1..]))
  }

  /** A string is split into its characters: the first one, and the rest
      one by one. */
  lemma GetFirstAndRestOfString(s: string)
    requires |s| > 0
    ensures GetFirstAndRest(Other(Str(s))).Ok?
    ensures GetFirstAndRest(Other(Str(s))).value.first == Str([s[0]])
    ensures GetFirstAndRest(Other(Str(s))).value.rest == Characters(s[1..])
  {
    var chars := Characters(s);
    assert chars[0] == Str([s[0]]);
    assert chars[1..] == Characters(s[1..]);
  }

  /** `getFirstAndRest()`, `getFirstAndRest(null)` and a plain object throw. */
  lemma NonIterableThrows(fields: map<string, Value>)
    ensures GetFirstAndRest(Other(Undefined)) == Err(NOT_ITERABLE)
    ensures GetFirstAndRest(Other(Null)) == Err(NOT_ITERABLE)
    ensures GetFirstAndRest(Other(Obj(fields))) == Err(NOT_ITERABLE)
  {
  }

  /** `{ ...user, ...updates, updatedAt: now }`, where `now` is the clock
      reading `new Date().toISOString()`. */
  function UpdateUser(user: Record, updates: Record, now: string): (r: Record)
    ensures r.Keys == user.Keys + updates.Keys + {"updatedAt"}
    ensures r["updatedAt"] == Str(now)
    ensures forall k :: k in updates && k != "updatedAt" ==> r[k] == updates[k]
    ensures forall k :: k in user && k !in updates && k != "updatedAt" ==> r[k] == user[k]
  {
    Spread(Spread(user, updates), map["updatedAt" := Str(now)])
  }

  /** Renaming user 1: the name changes, the id stays 1, and the result is
      a different record from the original. */
  lemma UpdateUserExample(now: string)
    ensures UpdateUser(map["id" := Num(1), "name" := Str("Old")], map["name" := Str("New")], now)["name"] == Str("New")
    ensures UpdateUser(map["id" := Num(1), "name" := Str("Old")], map["name" := Str("New")], now)["id"] == Num(1)
    ensures UpdateUser(map["id" := Num(1), "name" := Str("Old")], map["name" := Str("New")], now)
      != map["id" := Num(1), "name" := Str("Old")]
  {
    var original := map["id" := Num(1), "name" := Str("Old")];
    assert "updatedAt" !in original;
  }
}
