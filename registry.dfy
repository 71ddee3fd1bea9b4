/** The `wsClients` dictionary of the connection handler: device identity to
    socket. A JavaScript object keeps its own keys in insertion order, and both
    the settings fan-out (for-in) and the reverse lookup (Object.keys) walk
    them in that order, so the dictionary is a sequence of entries in property
    order whose abstraction is the map `ToMap`. */
module Registry {
  import opened Models

  datatype Entry = Entry(deviceId: DeviceId, ws: Socket)

  /** An object's own keys are pairwise distinct. */
  ghost predicate DistinctKeys(es: seq<Entry>)
  {
    forall i, j :: 0 <= i < j < |es| ==> es[i].deviceId != es[j].deviceId
  }

  /** `Object.keys(wsClients)`: the keys in property order. */
  function KeySeq(es: seq<Entry>): seq<DeviceId>
  {
    seq(|es|, i requires 0 <= i < |es| => es[i].deviceId)
  }

  /** The dictionary the entries stand for. */
  function ToMap(es: seq<Entry>): map<DeviceId, Socket>
  {
    if es == [] then map[] else ToMap(es[1..])[es[0].deviceId := es[0].ws]
  }

  /** A key is in the dictionary exactly when some entry carries it. */
  lemma {:induction false} InToMap(es: seq<Entry>, id: DeviceId)
    ensures id in ToMap(es) <==> exists i :: 0 <= i < |es| && es[i].deviceId == id
  {
    if es != [] {
      InToMap(es[1..], id);
      if id in ToMap(es[1..]) {
        var i :| 0 <= i < |es[1..]| && es[1..][i].deviceId == id;
        assert es[i + 1].deviceId == id;
      }
      if exists i :: 0 <= i < |es| && es[i].deviceId == id {
        var i :| 0 <= i < |es| && es[i].deviceId == id;
        if i > 0 {
          assert es[1..][i - 1].deviceId == id;
        }
      }
    }
  }

  /** With distinct keys the dictionary has one key per entry, and the entry
      carrying a key gives its socket. */
  lemma {:induction false} ToMapOfDistinct(es: seq<Entry>)
    requires DistinctKeys(es)
    ensures |ToMap(es)| == |es|
    ensures forall i :: 0 <= i < |es| ==> es[i].deviceId in ToMap(es) && ToMap(es)[es[i].deviceId] == es[i].ws
  {
    if es != [] {
      var tail := es[1..];
      assert DistinctKeys(tail) by {
        forall i, j | 0 <= i < j < |tail| ensures tail[i].deviceId != tail[j].deviceId {
          assert tail[i] == es[i + 1] && tail[j] == es[j + 1];
        }
      }
      ToMapOfDistinct(tail);
      InToMap(tail, es[0].deviceId);
      assert es[0].deviceId !in ToMap(tail);
      forall i | 0 <= i < |es|
        ensures es[i].deviceId in ToMap(es) && ToMap(es)[es[i].deviceId] == es[i].ws
      {
        if i > 0 {
          assert es[i] == tail[i - 1];
        }
      }
    }
  }

  /** `wsClients[id] = ws`: the key keeps its position when present and is
      appended otherwise. */
  function Assign(es: seq<Entry>, id: DeviceId, ws: Socket): (r: seq<Entry>)
    ensures ToMap(r) == ToMap(es)[id := ws]
  {
    if es == [] then [Entry(id, ws)]
    else if es[0].deviceId == id then
      var r := [Entry(id, ws)] + es[1..];
      assert r[1..] == es[1..];
      r
    else
      var r := [es[0]] + Assign(es[1..], id, ws);
      assert r[1..] == Assign(es[1..], id, ws);
      r
  }

  /** The key order after an assignment: an existing key keeps its position
      and a new key goes last. */
  lemma {:induction false} AssignKeys(es: seq<Entry>, id: DeviceId, ws: Socket)
    ensures KeySeq(Assign(es, id, ws)) == if id in ToMap(es) then KeySeq(es) else KeySeq(es) + [id]
  {
    if es != [] {
      var r := Assign(es, id, ws);
      assert KeySeq(es) == [es[0].deviceId] + KeySeq(es[1..]);
      if es[0].deviceId != id {
        AssignKeys(es[1..], id, ws);
        var rest := Assign(es[1..], id, ws);
        assert r == [es[0]] + rest;
        assert KeySeq(r) == [es[0].deviceId] + KeySeq(rest);
      } else {
        assert KeySeq(r) == KeySeq(es);
      }
    }
  }

  /** An assignment adds the new binding and no other entry. */
  lemma {:induction false} AssignEntries(es: seq<Entry>, id: DeviceId, ws: Socket)
    ensures Entry(id, ws) in Assign(es, id, ws)
    ensures forall e :: e in Assign(es, id, ws) ==> e in es || e == Entry(id, ws)
  {
    if es != [] && es[0].deviceId != id {
      AssignEntries(es[1..], id, ws);
      assert Assign(es, id, ws) == [es[0]] + Assign(es[1..], id, ws);
    }
  }

  /** An assignment keeps the keys distinct. */
  lemma AssignDistinct(es: seq<Entry>, id: DeviceId, ws: Socket)
    requires DistinctKeys(es)
    ensures DistinctKeys(Assign(es, id, ws))
  {
    var r := Assign(es, id, ws);
    AssignKeys(es, id, ws);
    var ks, rs := KeySeq(es), KeySeq(r);
    forall i, j | 0 <= i < j < |r| ensures r[i].deviceId != r[j].deviceId {
      assert rs[i] == r[i].deviceId && rs[j] == r[j].deviceId;
      if id !in ToMap(es) && j == |es| {
        InToMap(es, id);
        assert r[i].deviceId == es[i].deviceId;
      } else {
        assert r[i].deviceId == es[i].deviceId && r[j].deviceId == es[j].deviceId;
      }
    }
  }

  /** `delete wsClients[id]`: the entries under other keys, in their order. */
  function Delete(es: seq<Entry>, id: DeviceId): (r: seq<Entry>)
    ensures ToMap(r) == ToMap(es) - {id}
  {
    if es == [] then []
    else
      var rest := Delete(es[1..], id);
      if es[0].deviceId == id then rest
      else
        var r := [es[0]] + rest;
        assert r[1..] == rest;
        r
  }

  /** A deletion keeps exactly the entries under other keys. */
  lemma {:induction false} DeleteEntries(es: seq<Entry>, id: DeviceId)
    ensures forall e :: e in Delete(es, id) <==> e in es && e.deviceId != id
  {
    if es != [] {
      DeleteEntries(es[1..], id);
      assert forall e :: e in es <==> e == es[0] || e in es[1..];
      if es[0].deviceId != id {
        assert Delete(es, id) == [es[0]] + Delete(es[1..], id);
      }
    }
  }

  /** Deleting a key no entry carries changes nothing. */
  lemma {:induction false} DeleteAbsent(es: seq<Entry>, id: DeviceId)
    requires forall i :: 0 <= i < |es| ==> es[i].deviceId != id
    ensures Delete(es, id) == es
  {
    if es != [] {
      DeleteAbsent(es[1..], id);
    }
  }

  /** With distinct keys, deleting the key of entry `i` drops exactly that
      entry and keeps the others in their order. */
  lemma {:induction false} DeleteAt(es: seq<Entry>, i: nat)
    requires DistinctKeys(es) && i < |es|
    ensures Delete(es, es[i].deviceId) == es[..i] + es[i + 1..]
  {
    var id := es[i].deviceId;
    if i == 0 {
      DeleteAbsent(es[1..], id);
    } else {
      var tail := es[1..];
      assert DistinctKeys(tail) by {
        forall j, k | 0 <= j < k < |tail| ensures tail[j].deviceId != tail[k].deviceId {
          assert tail[j] == es[j + 1] && tail[k] == es[k + 1];
        }
      }
      assert tail[i - 1] == es[i];
      DeleteAt(tail, i - 1);
      assert es[0].deviceId != id;
      assert Delete(es, id) == [es[0]] + Delete(tail, id);
      assert es[..i] == [es[0]] + tail[..i - 1];
      assert es[i + 1..] == tail[i..];
    }
  }

  /** With distinct keys, deleting the first key drops exactly the first entry. */
  lemma DeleteFirst(es: seq<Entry>)
    requires DistinctKeys(es) && es != []
    ensures Delete(es, es[0].deviceId) == es[1..] && DistinctKeys(es[1..])
  {
    DeleteAbsent(es[1..], es[0].deviceId);
  }

  /** `findDeviceIdByWs`: every key bound to `ws` calls `resolve`, and the
      first call in property order decides the result; without a match the
      promise never settles, which is None here. */
  function FirstKeyOf(es: seq<Entry>, ws: Socket): (r: Option<DeviceId>)
    ensures r.None? <==> forall i :: 0 <= i < |es| ==> es[i].ws != ws
    ensures r.Some? ==> exists i :: 0 <= i < |es| && es[i] == Entry(r.value, ws)
                                   && forall j :: 0 <= j < i ==> es[j].ws != ws
  {
    if es == [] then None
    else if es[0].ws == ws then Some(es[0].deviceId)
    else
      var r := FirstKeyOf(es[1..], ws);
      if r.Some? then
        var i :| 0 <= i < |es[1..]| && es[1..][i] == Entry(r.value, ws)
                 && forall j :: 0 <= j < i ==> es[1..][j].ws != ws;
        assert es[i + 1] == Entry(r.value, ws);
        assert forall j :: 0 <= j < i + 1 ==> es[j].ws != ws by {
          forall j | 0 <= j < i + 1 ensures es[j].ws != ws {
            if j > 0 { assert es[j] == es[1..][j - 1]; }
          }
        }
        r
      else
        assert forall i :: 0 <= i < |es| ==> es[i].ws != ws by {
          forall i | 0 <= i < |es| ensures es[i].ws != ws {
            if i > 0 { assert es[i] == es[1..][i - 1]; }
          }
        }
        r
  }

  /** A socket that no key was bound to is found under the key it was just
      registered with. */
  lemma {:induction false} FindAfterRegister(es: seq<Entry>, id: DeviceId, ws: Socket)
    requires forall i :: 0 <= i < |es| ==> es[i].ws != ws
    ensures FirstKeyOf(Assign(es, id, ws), ws) == Some(id)
  {
    var r := Assign(es, id, ws);
    var k := FirstKeyOf(r, ws);
    AssignEntries(es, id, ws);
    var i :| 0 <= i < |r| && r[i] == Entry(id, ws);
    assert k.Some?;
    var m :| 0 <= m < |r| && r[m] == Entry(k.value, ws);
    assert r[m] in r;
    assert r[m] !in es;
  }

  /** Registering one socket under two keys: the reverse lookup answers the key
      that came first in property order, not the most recent registration. */
  lemma FirstKeyWinsOverLatest()
    ensures FirstKeyOf(Assign(Assign([], "a", Socket(1)), "b", Socket(1)), Socket(1)) == Some("a")
  {
    var r := Assign(Assign([], "a", Socket(1)), "b", Socket(1));
    assert r == [Entry("a", Socket(1)), Entry("b", Socket(1))];
  }

  /** One settings update per entry, in property order. */
  function Updates(es: seq<Entry>, f: Frame): seq<Delivery>
  {
    seq(|es|, i requires 0 <= i < |es| => Delivery(es[i].ws, f))
  }

  /** The number of keys bound to `ws`. */
  function BoundCount(es: seq<Entry>, ws: Socket): nat
  {
    if es == [] then 0
    else BoundCount(es[..|es| - 1], ws) + (if es[|es| - 1].ws == ws then 1 else 0)
  }

  /** A broadcast writes to each registered socket once per key bound to it,
      and to no other socket. */
  lemma {:induction false} BroadcastOutbox(es: seq<Entry>, f: Frame, ws: Socket)
    ensures Outbox(Updates(es, f), ws) == seq(BoundCount(es, ws), _ => f)
    ensures BoundCount(es, ws) == 0 <==> forall i :: 0 <= i < |es| ==> es[i].ws != ws
    decreases |es|
  {
    if es != [] {
      var init := es[..|es| - 1];
      assert Updates(es, f)[..|es| - 1] == Updates(init, f);
      BroadcastOutbox(init, f, ws);
      if BoundCount(es, ws) == 0 {
        forall i | 0 <= i < |es| ensures es[i].ws != ws {
          if i < |es| - 1 { assert es[i] == init[i]; }
        }
      }
    }
  }

  /** With distinct keys, a broadcast sends exactly one frame per key. */
  lemma BroadcastSize(es: seq<Entry>, f: Frame)
    requires DistinctKeys(es)
    ensures |Updates(es, f)| == |ToMap(es)|
  {
    ToMapOfDistinct(es);
  }
}
