/** Value shapes shared by the dashboard's components (types/types.ts). */
module Types {

  datatype Option<+T> = None | Some(value: T)

  /** A map position, the `[lat, lng]` pair of the source, in degrees (exact reals here). */
  datatype LatLng = LatLng(lat: real, lng: real)

  /** A threshold rule: a display colour, a comparison operator spelled as in the editor, a threshold. */
  datatype ThresholdRule = ThresholdRule(color: string, operator: string, value: real)

  /** A finished polygon as the map component keeps it: its vertices, its dataset name and its colour. */
  datatype PolygonData = PolygonData(coords: seq<LatLng>, dataSource: string, color: string)

  /** The five spellings the operator field may take. */
  predicate IsOperator(op: string)
  {
    op == "<" || op == "<=" || op == ">" || op == ">=" || op == "="
  }

  /** Every rule of the list carries one of the five operators. */
  predicate OperatorsValid(rules: seq<ThresholdRule>)
  {
    forall k :: 0 <= k < |rules| ==> IsOperator(rules[k].operator)
  }
}
