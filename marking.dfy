/** The page's "highlight the matching element" loops (navigation links, filter buttons). */
module Marking {

  /**
   * Each element loses the `active` class and gets it back when its attribute equals `wanted`:
   * afterwards exactly the elements whose attribute equals `wanted` are active.
   */
  method MarkActive(attributes: seq<string>, wanted: string) returns (active: seq<bool>)
    ensures |active| == |attributes|
    ensures forall j :: 0 <= j < |attributes| ==> (active[j] <==> attributes[j] == wanted)
  {
    active := [];
    var j := 0;
    while j < |attributes|
      invariant 0 <= j <= |attributes|
      invariant |active| == j
      invariant forall m :: 0 <= m < j ==> (active[m] <==> attributes[m] == wanted)
    {
      active := active + [attributes[j] == wanted];
      j := j + 1;
    }
  }
}
