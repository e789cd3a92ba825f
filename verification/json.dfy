/**
 * The values `json.load` produces, with objects kept as ordered field lists
 * (Python dicts remember insertion order), and the dict operations the
 * configuration code uses on them: lookup, item assignment, `update`, and
 * truth testing.
 */
module Json {
  import opened Wrappers

  /** A parsed JSON value; numbers are integers (see the README). */
  datatype Value =
    | Null
    | Bool(b: bool)
    | Num(n: int)
    | Str(s: string)
    | List(items: seq<Value>)
    | Obj(fields: seq<Field>)

  datatype Field = Field(key: string, val: Value)

  /** `k in d`. */
  predicate HasKey(fs: seq<Field>, k: string) {
    exists i :: 0 <= i < |fs| && fs[i].key == k
  }

  /** A dict as `json.load` builds it: no key twice. */
  predicate UniqueKeys(fs: seq<Field>) {
    forall i, j :: 0 <= i < j < |fs| ==> fs[i].key != fs[j].key
  }

  /** Past a first field with another key, `k in d` is decided by the rest. */
  lemma HasKeyTail(fs: seq<Field>, k: string)
    requires fs != [] && fs[0].key != k
    ensures HasKey(fs, k) <==> HasKey(fs[1..], k)
  {
    if HasKey(fs, k) {
      var i :| 0 <= i < |fs| && fs[i].key == k;
      assert fs[1..][i - 1].key == k;
    }
    if HasKey(fs[1..], k) {
      var i :| 0 <= i < |fs[1..]| && fs[1..][i].key == k;
      assert fs[i + 1].key == k;
    }
  }

  /** `d.get(k)`: the value stored under `k`, if any. */
  function Get(fs: seq<Field>, k: string): (r: Option<Value>)
    ensures r.Some? <==> HasKey(fs, k)
    ensures r.Some? ==> exists i :: 0 <= i < |fs| && fs[i] == Field(k, r.value)
    decreases |fs|
  {
    if fs == [] then None
    else if fs[0].key == k then Some(fs[0].val)
    else
      var r := Get(fs[1..], k);
      HasKeyTail(fs, k);
      assert r.Some? ==> exists i :: 0 <= i < |fs| && fs[i] == Field(k, r.value) by {
        if r.Some? {
          var i :| 0 <= i < |fs[1..]| && fs[1..][i] == Field(k, r.value);
          assert fs[i + 1] == Field(k, r.value);
        }
      }
      r
  }

  /**
   * `d[k] = v`: an existing key keeps its position and takes the new value;
   * a new key goes at the end.
   */
  function Set(fs: seq<Field>, k: string, v: Value): (r: seq<Field>)
    ensures Get(r, k) == Some(v)
    ensures forall k' :: k' != k ==> Get(r, k') == Get(fs, k')
    decreases |fs|
  {
    if fs == [] then [Field(k, v)]
    else if fs[0].key == k then [Field(k, v)] + fs[1..]
    else
      var rest := Set(fs[1..], k, v);
      var r := [fs[0]] + rest;
      assert r[0] == fs[0] && r[1..] == rest;
      assert forall k' :: k' != k ==> Get(r, k') == Get(fs, k') by {
        forall k' | k' != k ensures Get(r, k') == Get(fs, k') {
          if fs[0].key != k' {
            assert Get(r, k') == Get(rest, k');
          }
        }
      }
      r
  }

  /** Where the assigned field goes: in place of an existing key, else at the end. */
  lemma {:induction false} SetShape(fs: seq<Field>, k: string, v: Value)
    ensures HasKey(fs, k) ==> |Set(fs, k, v)| == |fs| && forall i :: 0 <= i < |fs| ==> Set(fs, k, v)[i].key == fs[i].key
    ensures !HasKey(fs, k) ==> Set(fs, k, v) == fs + [Field(k, v)]
    decreases |fs|
  {
    if fs != [] && fs[0].key != k {
      var rest := Set(fs[1..], k, v);
      var r := Set(fs, k, v);
      assert r == [fs[0]] + rest;
      SetShape(fs[1..], k, v);
      HasKeyTail(fs, k);
      if HasKey(fs, k) {
        forall i | 0 < i < |fs| ensures r[i].key == fs[i].key {
          assert r[i] == rest[i - 1];
        }
      } else {
        assert [fs[0]] + (fs[1..] + [Field(k, v)]) == fs + [Field(k, v)];
      }
    } else if fs != [] {
      assert HasKey(fs, k) by {
        assert fs[0].key == k;
      }
    }
  }

  /** The first field carrying `k` is the one `d.get(k)` finds. */
  lemma {:induction false} GetAt(fs: seq<Field>, i: int, k: string)
    requires 0 <= i < |fs| && fs[i].key == k
    requires forall j :: 0 <= j < i ==> fs[j].key != k
    ensures Get(fs, k) == Some(fs[i].val)
    decreases i
  {
    if i > 0 {
      GetAt(fs[1..], i - 1, k);
    }
  }

  /** Keyword arguments `**a, **b` side by side: a key is found in `a` first, then in `b`. */
  lemma {:induction false} GetAppend(a: seq<Field>, b: seq<Field>, k: string)
    ensures Get(a + b, k) == if HasKey(a, k) then Get(a, k) else Get(b, k)
    decreases |a|
  {
    if a != [] {
      assert (a + b)[0] == a[0] && (a + b)[1..] == a[1..] + b;
      GetAppend(a[1..], b, k);
      if a[0].key != k {
        HasKeyTail(a, k);
      }
    } else {
      assert a + b == b;
    }
  }

  /** The dict comprehension `{k: v for k, v in d.items() if k != key}`. */
  function Without(fs: seq<Field>, key: string): (r: seq<Field>)
    ensures !HasKey(r, key)
    ensures forall k :: k != key ==> Get(r, k) == Get(fs, k)
    decreases |fs|
  {
    if fs == [] then []
    else
      var rest := Without(fs[1..], key);
      if fs[0].key == key then rest
      else
        var r := [fs[0]] + rest;
        assert r[1..] == rest;
        r
  }

  /** Assigning a key keeps every key unique. */
  lemma {:induction false} SetUnique(fs: seq<Field>, k: string, v: Value)
    requires UniqueKeys(fs)
    ensures UniqueKeys(Set(fs, k, v))
  {
    var r := Set(fs, k, v);
    SetShape(fs, k, v);
    if !HasKey(fs, k) {
      forall i, j | 0 <= i < j < |r| ensures r[i].key != r[j].key {
        if j == |fs| {
          assert r[i] == fs[i];
        } else {
          assert r[i] == fs[i] && r[j] == fs[j];
        }
      }
    }
  }

  /**
   * `a.update(b)` for a dict `b`: `b`'s items assigned one by one, in `b`'s
   * order.
   */
  function Update(a: seq<Field>, b: seq<Field>): seq<Field>
    decreases |b|
  {
    if b == [] then a else Update(Set(a, b[0].key, b[0].val), b[1..])
  }

  /** After `a.update(b)` every key reads `b`'s value if `b` has it, and `a`'s otherwise. */
  lemma {:induction false} UpdateGet(a: seq<Field>, b: seq<Field>, k: string)
    requires UniqueKeys(b)
    ensures Get(Update(a, b), k) == if HasKey(b, k) then Get(b, k) else Get(a, k)
    decreases |b|
  {
    if b != [] {
      var a1 := Set(a, b[0].key, b[0].val);
      assert UniqueKeys(b[1..]) by {
        forall i, j | 0 <= i < j < |b[1..]| ensures b[1..][i].key != b[1..][j].key {
          assert b[1..][i] == b[i + 1] && b[1..][j] == b[j + 1];
        }
      }
      UpdateGet(a1, b[1..], k);
      if k == b[0].key {
        forall i | 0 <= i < |b[1..]| ensures b[1..][i].key != k {
          assert b[1..][i] == b[i + 1];
        }
      } else {
        HasKeyTail(b, k);
      }
    }
  }

  /** `a.update(b)` leaves `a`'s keys where they were; `b`'s new keys follow. */
  lemma {:induction false} UpdateKeepsOrder(a: seq<Field>, b: seq<Field>)
    ensures |Update(a, b)| >= |a|
    ensures forall i :: 0 <= i < |a| ==> Update(a, b)[i].key == a[i].key
    decreases |b|
  {
    if b != [] {
      var a1 := Set(a, b[0].key, b[0].val);
      UpdateKeepsOrder(a1, b[1..]);
      SetShape(a, b[0].key, b[0].val);
      assert forall i :: 0 <= i < |a| ==> a1[i].key == a[i].key;
    }
  }

  /** Python truth value: null, false, 0 and empty strings, lists and objects are false. */
  predicate Truthy(v: Value) {
    match v
    case Null => false
    case Bool(b) => b
    case Num(n) => n != 0
    case Str(s) => s != ""
    case List(items) => items != []
    case Obj(fields) => fields != []
  }

  /** Strings as a JSON list of strings. */
  function StrList(ss: seq<string>): (r: seq<Value>)
    ensures |r| == |ss| && forall i :: 0 <= i < |ss| ==> r[i] == Str(ss[i])
  {
    seq(|ss|, i requires 0 <= i < |ss| => Str(ss[i]))
  }
}
