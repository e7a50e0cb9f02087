/** The all-zero test of the data column's value counts. */
module DataColumn {
  /** A value and how many times it occurs. */
  datatype StringNumberRelation = StringNumberRelation(value: string, count: real)

  /** `isAllZero(data)`: scans the counts and stops at the first that is not zero. */
  method IsAllZero(data: seq<StringNumberRelation>) returns (r: bool)
    ensures r <==> forall i :: 0 <= i < |data| ==> data[i].count == 0.0
    ensures !r ==> exists i :: 0 <= i < |data| && data[i].count != 0.0
  {
    for i := 0 to |data|
      invariant forall j :: 0 <= j < i ==> data[j].count == 0.0
    {
      if data[i].count != 0.0 {
        return false;
      }
    }
    return true;
  }
}
