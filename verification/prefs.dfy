/**
 * Preference objects such as `{ devLogs: true, techNews: true, ... }`: an
 * ordered list of key/flag entries, as `Object.keys` lists them, with the
 * one-key toggle `{ ...prev, [key]: !prev[key] }` used by the sign-up forms.
 */
module Prefs {
  import opened Seqs

  datatype Pref = Pref(key: string, on: bool)

  function Keys(p: seq<Pref>): (r: seq<string>)
    ensures |r| == |p|
  {
    if |p| == 0 then [] else [p[0].key] + Keys(p[1..])
  }

  /** `prev[key]`: the flag of `key`, if the object has it. */
  function Get(p: seq<Pref>, key: string): (r: Option<bool>)
    ensures r.None? <==> key !in Keys(p)
    ensures r.Some? ==> Pref(key, r.value) in p
  {
    if |p| == 0 then None
    else if p[0].key == key then Some(p[0].on)
    else
      assert Keys(p) == [p[0].key] + Keys(p[1..]);
      Get(p[1..], key)
  }

  lemma GetCons(x: Pref, rest: seq<Pref>, k: string)
    ensures Get([x] + rest, k) == if x.key == k then Some(x.on) else Get(rest, k)
  {
    assert ([x] + rest)[1..] == rest;
  }

  lemma KeysCons(x: Pref, rest: seq<Pref>)
    ensures Keys([x] + rest) == [x.key] + Keys(rest)
  {
  }

  /**
   * `{ ...prev, [key]: !prev[key] }`: the flag of `key` is negated in place;
   * an absent key (`!undefined`) is added at the end, switched on.
   */
  function Toggle(p: seq<Pref>, key: string): (r: seq<Pref>)
    ensures key in Keys(p) ==> Keys(r) == Keys(p)
    ensures key !in Keys(p) ==> Keys(r) == Keys(p) + [key]
    ensures key in Keys(p) ==> Get(r, key) == Some(!Get(p, key).value)
    ensures key !in Keys(p) ==> Get(r, key) == Some(true)
    ensures forall k :: k != key ==> Get(r, k) == Get(p, k)
  {
    if |p| == 0 then
      GetCons(Pref(key, true), [], key);
      assert forall k :: k != key ==> Get([Pref(key, true)], k) == Get(p, k) by {
        forall k | k != key ensures Get([Pref(key, true)], k) == Get(p, k) {
          GetCons(Pref(key, true), [], k);
        }
      }
      [Pref(key, true)]
    else
      var x, tail := p[0], p[1..];
      assert p == [x] + tail;
      KeysCons(x, tail);
      GetCons(x, tail, key);
      if x.key == key then
        var r := [Pref(key, !x.on)] + tail;
        KeysCons(Pref(key, !x.on), tail);
        GetCons(Pref(key, !x.on), tail, key);
        assert forall k :: k != key ==> Get(r, k) == Get(p, k) by {
          forall k | k != key ensures Get(r, k) == Get(p, k) {
            GetCons(Pref(key, !x.on), tail, k);
            GetCons(x, tail, k);
          }
        }
        r
      else
        var rest := Toggle(tail, key);
        var r := [x] + rest;
        KeysCons(x, rest);
        GetCons(x, rest, key);
        assert Get(r, key) == Get(rest, key);
        assert Get(p, key) == Get(tail, key);
        assert key in Keys(p) <==> key in Keys(tail);
        assert forall k :: k != key ==> Get(r, k) == Get(p, k) by {
          forall k | k != key ensures Get(r, k) == Get(p, k) {
            GetCons(x, rest, k);
            GetCons(x, tail, k);
          }
        }
        r
  }

  /** Toggling a key twice gives back the object. */
  lemma {:induction false} ToggleTwice(p: seq<Pref>, key: string)
    requires key in Keys(p)
    ensures Toggle(Toggle(p, key), key) == p
  {
    assert Keys(p) == [p[0].key] + Keys(p[1..]);
    if p[0].key != key {
      ToggleTwice(p[1..], key);
      assert Toggle(p, key) == [p[0]] + Toggle(p[1..], key);
    }
  }

  /**
   * `Object.keys(p).filter(key => p[key])`: the keys switched on, in order.
   * `Object.keys` lists integer-like keys first; the forms' keys are words,
   * so insertion order is the order here.
   */
  function TrueKeys(p: seq<Pref>): (r: seq<string>)
    ensures forall k :: k in r <==> exists i :: 0 <= i < |p| && p[i] == Pref(k, true)
    ensures Subseq(r, Keys(p))
    ensures |r| <= |p|
  {
    if |p| == 0 then []
    else
      var rest := TrueKeys(p[1..]);
      assert Keys(p) == [p[0].key] + Keys(p[1..]);
      assert Keys(p)[1..] == Keys(p[1..]);
      assert forall k :: (exists i :: 0 <= i < |p| && p[i] == Pref(k, true)) <==>
        (p[0] == Pref(k, true) || exists i :: 0 <= i < |p[1..]| && p[1..][i] == Pref(k, true)) by {
        forall k ensures (exists i :: 0 <= i < |p| && p[i] == Pref(k, true)) <==>
          (p[0] == Pref(k, true) || exists i :: 0 <= i < |p[1..]| && p[1..][i] == Pref(k, true)) {
          if exists i :: 0 <= i < |p| && p[i] == Pref(k, true) {
            var i :| 0 <= i < |p| && p[i] == Pref(k, true);
            if i > 0 { assert p[1..][i - 1] == p[i]; }
          }
          if exists i :: 0 <= i < |p[1..]| && p[1..][i] == Pref(k, true) {
            var i :| 0 <= i < |p[1..]| && p[1..][i] == Pref(k, true);
            assert p[i + 1] == p[1..][i];
          }
        }
      }
      if p[0].on then
        assert ([p[0].key] + rest)[1..] == rest;
        [p[0].key] + rest
      else
        SubseqSkip(p[0].key, rest, Keys(p[1..]));
        rest
  }

  lemma TrueKeysCons(x: Pref, rest: seq<Pref>)
    ensures TrueKeys([x] + rest) == (if x.on then [x.key] else []) + TrueKeys(rest)
  {
    assert ([x] + rest)[0] == x && ([x] + rest)[1..] == rest;
  }

  /** With every flag on, the keys switched on are all the keys. */
  lemma {:induction false} TrueKeysAllOn(p: seq<Pref>)
    requires forall i :: 0 <= i < |p| ==> p[i].on
    ensures TrueKeys(p) == Keys(p)
    decreases |p|
  {
    if |p| > 0 {
      assert p == [p[0]] + p[1..];
      TrueKeysCons(p[0], p[1..]);
      KeysCons(p[0], p[1..]);
      TrueKeysAllOn(p[1..]);
    }
  }
}
