/** Key-path lookups in the parsed configuration document. Parsing itself is not modelled:
    the operations receive the already parsed value. */
module Config {
  import opened Wrappers
  import opened Strings

  /** A parsed configuration value. Only objects and strings matter to the lookups; every
      other kind (null, booleans, numbers, arrays) behaves the same and is `Other`. */
  datatype Value = Object(fields: map<string, Value>) | String(text: string) | Other

  const PathSeparator := "."

  /** The reference walk: look each key up in the object reached so far. */
  function Walk(v: Value, keys: seq<string>): Option<Value>
    decreases |keys|
  {
    if keys == [] then Some(v)
    else match v
      case Object(fields) =>
        if keys[0] in fields then Walk(fields[keys[0]], keys[1..]) else None
      case _ => None
  }

  /** `object_by_path`: splits the path on "." and follows the keys from the root, giving up
      at the first key that is missing or that is asked of a value that is not an object. */
  method ObjectByPath(config: Value, searchPath: string) returns (r: Option<Value>)
    ensures r == Walk(config, Split(searchPath, PathSeparator))
  {
    var current := config;
    var pathParts := Split(searchPath, PathSeparator);
    for i := 0 to |pathParts|
      invariant Walk(config, pathParts) == Walk(current, pathParts[i..])
    {
      var part := pathParts[i];
      assert pathParts[i..][1..] == pathParts[i + 1..];
      if current.Object? {
        if part in current.fields {
          current := current.fields[part];
        } else {
          return None;
        }
      } else {
        return None;
      }
    }
    r := Some(current);
  }

  /** `string_by_path`: the text at the path when the value there is a string, else nothing. */
  method StringByPath(config: Value, searchPath: string) returns (r: Option<string>)
    ensures match Walk(config, Split(searchPath, PathSeparator))
      case Some(String(text)) => r == Some(text)
      case _ => r == None
  {
    var value := ObjectByPath(config, searchPath);
    if value.Some? && value.value.String? {
      return Some(value.value.text);
    }
    return None;
  }

  /** Walking a path in two parts is walking the first part, then the second from where it ends. */
  lemma {:induction false} WalkAppend(v: Value, first: seq<string>, second: seq<string>)
    ensures Walk(v, first + second) == match Walk(v, first)
      case None => None
      case Some(w) => Walk(w, second)
    decreases |first|
  {
    if first == [] {
      assert first + second == second;
    } else {
      assert (first + second)[1..] == first[1..] + second;
      if v.Object? && first[0] in v.fields {
        WalkAppend(v.fields[first[0]], first[1..], second);
      }
    }
  }

  /** The walk stops as soon as a key is missing from the object reached before it. */
  lemma WalkStopsAtMissingKey(v: Value, keys: seq<string>, i: nat, fields: map<string, Value>)
    requires i < |keys|
    requires Walk(v, keys[..i]) == Some(Object(fields))
    requires keys[i] !in fields
    ensures Walk(v, keys) == None
  {
    WalkAppend(v, keys[..i], keys[i..]);
    assert keys[..i] + keys[i..] == keys;
  }

  /** The walk stops as soon as the value reached before a key is not an object. */
  lemma WalkStopsAtNonObject(v: Value, keys: seq<string>, i: nat)
    requires i < |keys|
    requires Walk(v, keys[..i]).Some? && !Walk(v, keys[..i]).value.Object?
    ensures Walk(v, keys) == None
  {
    WalkAppend(v, keys[..i], keys[i..]);
    assert keys[..i] + keys[i..] == keys;
  }

  /** Looking up "p.q" is looking up "p" and then "q" from the value found there. */
  lemma PathConcat(config: Value, p: string, q: string)
    ensures Walk(config, Split(p + PathSeparator + q, PathSeparator)) ==
      match Walk(config, Split(p, PathSeparator))
      case None => None
      case Some(w) => Walk(w, Split(q, PathSeparator))
  {
    SplitAtSeparator(p, PathSeparator, q);
    WalkAppend(config, Split(p, PathSeparator), Split(q, PathSeparator));
  }
}
