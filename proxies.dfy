/** `createValidator`: a target object behind a write trap that checks the
    value against the schema's predicate for that property (if the schema
    has one) and only then stores it. */
module Proxies {
  import opened Wrappers

  /** The set trap refuses the write. */
  predicate Rejects<V>(schema: map<string, V -> bool>, prop: string, value: V) {
    prop in schema && !schema[prop](value)
  }

  function InvalidValueMessage(prop: string): string {
    "Invalid value for " + prop
  }

  class Validator<V> {
    /** The target object's properties. */
    var target: map<string, V>
    const schema: map<string, V -> bool>

    /** `createValidator(target, schema)` */
    constructor (target: map<string, V>, schema: map<string, V -> bool>)
      ensures this.target == target && this.schema == schema
    {
      this.target := target;
      this.schema := schema;
    }

    /** `proxy[prop] = value` */
    method Set(prop: string, value: V) returns (r: Result<bool, string>)
      modifies this
      ensures Rejects(schema, prop, value) ==>
        r == Err(InvalidValueMessage(prop)) && target == old(target)
      ensures !Rejects(schema, prop, value) ==>
        r == Ok(true) && target.Keys == old(target).Keys + {prop} && target[prop] == value
      ensures forall k :: k != prop && k in old(target) ==> k in target && target[k] == old(target)[k]
    {
      if prop in schema && !schema[prop](value) {
        return Err(InvalidValueMessage(prop));
      }
      target := target[prop := value];
      return Ok(true);
    }
  }

  /** The schema `age: v > 0` refuses -5 and keeps the target empty. */
  method NegativeAgeRejected() returns (r: Result<bool, string>, stored: map<string, int>)
    ensures r == Err("Invalid value for age") && stored == map[]
  {
    var user := new Validator(map[], map["age" := (v: int) => v > 0]);
    assert Rejects(user.schema, "age", -5);
    r := user.Set("age", -5);
    assert InvalidValueMessage("age") == "Invalid value for age";
    stored := user.target;
  }

  /** A property without a schema entry is always stored. */
  method UncheckedPropertyStored(name: string) returns (r: Result<bool, string>, stored: map<string, string>)
    ensures r == Ok(true) && stored == map["name" := name]
  {
    var user := new Validator(map[], map["age" := (v: string) => |v| > 0]);
    r := user.Set("name", name);
    stored := user.target;
  }
}
