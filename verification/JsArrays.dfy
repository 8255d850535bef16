/** ECMAScript arrays as the server uses them (ECMA-262 edition 5.1, section 15.4): push appends at
    the array's length, delete removes an element and leaves a hole, and no index ever moves. */
module JsArrays {
  datatype JsArray<+T> = JsArray(length: nat, elems: map<nat, T>) {

    ghost predicate Valid() {
      forall i :: i in elems ==> i < length
    }

    function Push(x: T): JsArray<T> {
      JsArray(length + 1, elems[length := x])
    }

    function Delete(i: nat): JsArray<T> {
      JsArray(length, elems - {i})
    }

    /** The live indices below n in ascending order: what a loop or forEach that skips holes visits. */
    function Live(n: nat): (at: seq<nat>)
      ensures forall i :: i in at <==> i < n && i in elems
      ensures forall k, l :: 0 <= k < l < |at| ==> at[k] < at[l]
    {
      if n == 0 then []
      else
        var before := Live(n - 1);
        assert forall k :: 0 <= k < |before| ==> before[k] in before;
        if n - 1 in elems then before + [n - 1] else before
    }
  }

  function Empty<T>(): JsArray<T> { JsArray(0, map[]) }
}
