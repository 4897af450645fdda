/**
 * A JavaScript `Record<string, string>` (the selected options of a line) as the ordered list of
 * its entries: `Object.entries` gives them back in this order, and spreading a record with one
 * computed key, `{ ...prev, [k]: v }`, updates an existing key in place and appends a new one.
 */
module Objects {
  import opened Wrappers

  /**
   * The value stored under a key: a string, or `undefined`, which the dish card stores for an
   * option group whose choice list is empty.
   */
  datatype Value = Str(s: string) | Undefined

  /** What a template literal writes for a value: `${undefined}` is the text "undefined". */
  function TemplateText(v: Value): string {
    match v
    case Str(s) => s
    case Undefined => "undefined"
  }

  type Record = seq<(string, Value)>

  predicate HasKey(o: Record, k: string) {
    exists i :: 0 <= i < |o| && o[i].0 == k
  }

  /** A record built from JavaScript objects never lists one key twice. */
  predicate UniqueKeys(o: Record) {
    forall i, j :: 0 <= i < j < |o| ==> o[i].0 != o[j].0
  }

  /** `o[k]`, `None` for `undefined`. */
  function Get(o: Record, k: string): (r: Option<Value>)
    ensures r.Some? <==> HasKey(o, k)
  {
    if o == [] then None
    else if o[0].0 == k then Some(o[0].1)
    else
      var r := Get(o[1..], k);
      assert HasKey(o, k) <==> HasKey(o[1..], k) by {
        if HasKey(o[1..], k) {
          var i :| 0 <= i < |o[1..]| && o[1..][i].0 == k;
          assert o[i + 1].0 == k;
        }
      }
      r
  }

  /** Every entry whose key is `k` gets the value `v`; the others stay as they are. */
  function SetValue(o: Record, k: string, v: Value): (r: Record)
    ensures |r| == |o|
    ensures forall i :: 0 <= i < |o| ==> r[i] == if o[i].0 == k then (k, v) else o[i]
  {
    if o == [] then [] else [if o[0].0 == k then (k, v) else o[0]] + SetValue(o[1..], k, v)
  }

  /** `{ ...o, [k]: v }`. */
  function Put(o: Record, k: string, v: Value): Record {
    if HasKey(o, k) then SetValue(o, k, v) else o + [(k, v)]
  }

  lemma {:induction false} GetSetValue(o: Record, k: string, v: Value, k': string)
    requires HasKey(o, k)
    ensures Get(SetValue(o, k, v), k') == if k' == k then Some(v) else Get(o, k')
  {
    var r := SetValue(o, k, v);
    assert r != [];
    if o[0].0 == k {
      if k' != k {
        if o[1..] != [] && HasKey(o[1..], k) {
          GetSetValue(o[1..], k, v, k');
        } else {
          GetUnchanged(o[1..], k, v, k');
        }
        assert r[1..] == SetValue(o[1..], k, v);
      }
    } else {
      assert HasKey(o[1..], k) by {
        var i :| 0 <= i < |o| && o[i].0 == k;
        assert o[1..][i - 1].0 == k;
      }
      GetSetValue(o[1..], k, v, k');
      assert r[1..] == SetValue(o[1..], k, v);
    }
  }

  lemma {:induction false} GetUnchanged(o: Record, k: string, v: Value, k': string)
    requires k' != k
    ensures Get(SetValue(o, k, v), k') == Get(o, k')
  {
    if o != [] {
      var r := SetValue(o, k, v);
      assert r[1..] == SetValue(o[1..], k, v);
      GetUnchanged(o[1..], k, v, k');
    }
  }

  lemma {:induction false} GetAppend(o: Record, k: string, v: Value, k': string)
    requires !HasKey(o, k)
    ensures Get(o + [(k, v)], k') == if k' == k then Some(v) else Get(o, k')
  {
    if o == [] {
    } else {
      assert (o + [(k, v)])[1..] == o[1..] + [(k, v)];
      GetAppend(o[1..], k, v, k');
    }
  }

  /** Choosing a value for one option group: that key now reads `v`, every other key reads as before. */
  lemma PutGet(o: Record, k: string, v: Value)
    ensures Get(Put(o, k, v), k) == Some(v)
    ensures forall k' :: k' != k ==> Get(Put(o, k, v), k') == Get(o, k')
  {
    if HasKey(o, k) {
      GetSetValue(o, k, v, k);
      forall k' | k' != k ensures Get(Put(o, k, v), k') == Get(o, k') {
        GetSetValue(o, k, v, k');
      }
    } else {
      GetAppend(o, k, v, k);
      forall k' | k' != k ensures Get(Put(o, k, v), k') == Get(o, k') {
        GetAppend(o, k, v, k');
      }
    }
  }

  /**
   * The entries after choosing: existing keys keep their place, a new key goes last, and no
   * key is listed twice.
   */
  lemma PutShape(o: Record, k: string, v: Value)
    ensures |Put(o, k, v)| == if HasKey(o, k) then |o| else |o| + 1
    ensures forall i :: 0 <= i < |o| ==> Put(o, k, v)[i].0 == o[i].0
    ensures !HasKey(o, k) ==> Put(o, k, v)[|o|] == (k, v)
    ensures UniqueKeys(o) ==> UniqueKeys(Put(o, k, v))
  {
    var r := Put(o, k, v);
    if !HasKey(o, k) {
      assert r == o + [(k, v)];
      assert forall i :: 0 <= i < |o| ==> o[i].0 != k;
    }
  }
}
