/**
 The registry class: an unordered map behind a reader/writer lock.  A method may
 be entered when the lock lets it in (its `requires`); StreamerModel has the same
 guards as the conditions under which a waiting thread proceeds.
 */
module SafeUMapClass {
  import opened Wrappers

  ghost predicate EachOnce<K, V>(visited: seq<(K, V)>, m: map<K, V>) {
    && (forall i :: 0 <= i < |visited| ==> visited[i].0 in m && m[visited[i].0] == visited[i].1)
    && (forall k :: k in m ==> exists i :: 0 <= i < |visited| && visited[i].0 == k)
    && (forall i, j :: 0 <= i < j < |visited| ==> visited[i].0 != visited[j].0)
  }

  class SafeUMap<K(==), V> {
    var map_: map<K, V>
    var readers: nat       // shared owners of the mutex
    var writer: bool       // somebody owns it exclusively

    constructor ()
      ensures map_ == map[] && readers == 0 && !writer
    {
      map_, readers, writer := map[], 0, false;
    }

    /** Inserts only if the key is new; the value already there is never replaced. */
    method Emplace(key: K, value: V) returns (inserted: bool)
      requires !writer && readers == 0
      modifies this
      ensures !writer && readers == 0
      ensures inserted <==> key !in old(map_)
      ensures map_ == if inserted then old(map_)[key := value] else old(map_)
    {
      writer := true;
      inserted := key !in map_;
      if inserted {
        map_ := map_[key := value];
      }
      writer := false;
    }

    method Get(key: K) returns (value: Option<V>)
      requires !writer
      modifies this
      ensures !writer && readers == old(readers) && map_ == old(map_)
      ensures value == if key in map_ then Some(map_[key]) else None
    {
      readers := readers + 1;
      value := if key in map_ then Some(map_[key]) else None;
      readers := readers - 1;
    }

    method Erase(key: K) returns (erased: bool)
      requires !writer && readers == 0
      modifies this
      ensures !writer && readers == 0
      ensures erased <==> key in old(map_)
      ensures map_ == old(map_) - {key}
    {
      writer := true;
      erased := key in map_;
      map_ := map_ - {key};
      writer := false;
    }

    /** The callback's calls, in the order they were made: every entry exactly once, in some order. */
    method Traverse() returns (visited: seq<(K, V)>)
      requires !writer
      modifies this
      ensures !writer && readers == old(readers) && map_ == old(map_)
      ensures EachOnce(visited, map_)
    {
      readers := readers + 1;
      visited := [];
      var todo := map_.Keys;
      while todo != {}
        invariant map_ == old(map_) && readers == old(readers) + 1 && !writer && todo <= map_.Keys
        invariant forall i :: 0 <= i < |visited| ==> visited[i].0 in map_ && map_[visited[i].0] == visited[i].1
        invariant forall i :: 0 <= i < |visited| ==> visited[i].0 !in todo
        invariant forall k :: k in map_ && k !in todo ==> exists i :: 0 <= i < |visited| && visited[i].0 == k
        invariant forall i, j :: 0 <= i < j < |visited| ==> visited[i].0 != visited[j].0
        decreases todo
      {
        ghost var before := visited;
        var k :| k in todo;
        visited := visited + [(k, map_[k])];
        todo := todo - {k};
        forall x | x in map_ && x !in todo
          ensures exists i :: 0 <= i < |visited| && visited[i].0 == x
        {
          if x == k {
            assert visited[|before|].0 == x;
          } else {
            var i :| 0 <= i < |before| && before[i].0 == x;
            assert visited[i].0 == x;
          }
        }
      }
      readers := readers - 1;
    }
  }
}
