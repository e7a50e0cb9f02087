/** The node attribute and constant record the newer managers and controllers import from
    `constants/nodes.ts` and `constants/nodesConstants.ts`. Those two files are not part
    of this model, so their constants are a parameter here rather than fixed values. */
module NodeConstants {
  import Nodes

  /** An explicit-community key driving one node dimension, with the legend's on/off flag. */
  datatype DimAttribute = DimAttribute(key: string, values: seq<string>, dimension: Nodes.Dimensions, active: bool)

  /** The node constants the strategies and the node-visuals controller read. */
  datatype NodeConst = NodeConst(
    defaultSize: int,
    selectedSize: int,
    medoidSize: int,
    anonimousSizeIncrease: int,
    defaultColor: string,
    noFocusBackground: string,
    noFocusBorder: string,
    defaultShape: Nodes.ShapeData,
    defaultBorderWidth: int,
    selectedBorderWidth: int,
    defaultBorderColorWidth: int,
    selectedBorderColorWidth: int,
    anonymousGroupKey: string)

  /** `nodeDimensions.getColor`, `getShape` and `getBorder`: the dimension value for the
      index of an attribute value. */
  datatype DimensionGetters = DimensionGetters(
    getColor: nat -> string,
    getShape: nat -> Nodes.ShapeData,
    getBorder: nat -> string)
}
