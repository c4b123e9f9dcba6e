/**
 * The user memo of a resource memory: a dictionary whose entries can also
 * be read, assigned and deleted as attributes.
 */
module Memos {
  import opened Wrappers
  import opened Bodies

  /** The exceptions the two access surfaces raise for a missing key. */
  datatype MemoError = KeyError(key: string) | AttributeError(key: string)

  /**
   * What `memo.name` evaluates to: either the memo's entry, or one of the
   * dictionary's own attributes (a bound method such as `memo.keys`).
   */
  datatype Attr = Entry(value: Value) | DictMember(name: string)

  /** The public methods every dictionary has. */
  const DictMethodNames: set<string> :=
    {"clear", "copy", "fromkeys", "get", "items", "keys", "pop", "popitem", "setdefault", "update", "values"}

  /** Names shaped like `__name__`, taken here as the dictionary's special attributes. */
  predicate IsDunder(name: string) {
    |name| > 4 && name[..2] == "__" && name[|name| - 2..] == "__"
  }

  /**
   * Names that ordinary attribute lookup finds on the memo's class, so that
   * the `__getattr__` fallback is never consulted for them.
   */
  predicate IsClassAttribute(name: string) {
    name in DictMethodNames || IsDunder(name)
  }

  class Memo {
    /** The dictionary's storage, shared by both access surfaces. */
    var items: map<string, Value>

    constructor ()
      ensures items == map[]
    {
      items := map[];
    }

    /** `memo[key]`: the stored value, or `KeyError`. */
    function GetItem(key: string): (r: Result<Value, MemoError>)
      reads this
      ensures r.Ok? <==> key in items
      ensures r.Ok? ==> r.value == items[key]
      ensures r.Err? ==> r.error == KeyError(key)
    {
      if key in items then Ok(items[key]) else Err(KeyError(key))
    }

    /**
     * `memo.key`: ordinary lookup first; the `__getattr__` fallback reads the
     * same storage as `memo[key]` and turns its `KeyError` into `AttributeError`.
     */
    function GetAttr(key: string): (r: Result<Attr, MemoError>)
      reads this
      ensures IsClassAttribute(key) ==> r == Ok(DictMember(key))
      ensures !IsClassAttribute(key) ==> (r.Ok? <==> GetItem(key).Ok?)
      ensures !IsClassAttribute(key) && r.Ok? ==> r.value == Entry(GetItem(key).value)
      ensures r.Err? <==> !IsClassAttribute(key) && GetItem(key) == Err(KeyError(key))
      ensures r.Err? ==> r.error == AttributeError(key)
    {
      if IsClassAttribute(key) then Ok(DictMember(key))
      else
        match GetItem(key)
        case Ok(v) => Ok(Entry(v))
        case Err(_) => Err(AttributeError(key))
    }

    /** `memo[key] = value`. */
    method SetItem(key: string, value: Value)
      modifies this
      ensures items == old(items)[key := value]
      ensures GetItem(key) == Ok(value)
    {
      items := items[key := value];
    }

    /** `memo.key = value`: always stores into the dictionary, whatever the name. */
    method SetAttr(key: string, value: Value)
      modifies this
      ensures items == old(items)[key := value]
      ensures GetItem(key) == Ok(value)
      ensures !IsClassAttribute(key) ==> GetAttr(key) == Ok(Entry(value))
    {
      SetItem(key, value);
    }

    /** `del memo[key]`: removes the entry, or raises `KeyError` and changes nothing. */
    method DelItem(key: string) returns (err: Option<MemoError>)
      modifies this
      ensures err.None? <==> key in old(items)
      ensures err.Some? ==> err.value == KeyError(key)
      ensures items == old(items) - {key}
      ensures GetItem(key) == Err(KeyError(key))
    {
      if key in items {
        items := items - {key};
        err := None;
      } else {
        err := Some(KeyError(key));
      }
    }

    /** `del memo.key`: removes the entry, or raises `AttributeError` and changes nothing. */
    method DelAttr(key: string) returns (err: Option<MemoError>)
      modifies this
      ensures err.None? <==> key in old(items)
      ensures err.Some? ==> err.value == AttributeError(key)
      ensures items == old(items) - {key}
      ensures !IsClassAttribute(key) ==> GetAttr(key) == Err(AttributeError(key))
    {
      var e := DelItem(key);
      if e.Some? {
        err := Some(AttributeError(key));
      } else {
        err := None;
      }
    }
  }
}
