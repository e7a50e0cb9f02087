/** The user (node) record the dimension strategies and the node-visuals controller edit in
    place: the data they read, and the vis.js visual fields they write. */
module UserRecords {
  import opened Wrappers

  /** A node's `color` object; a field that was never written is `None` (`undefined`). */
  datatype NodeColor = NodeColor(background: Option<string>, border: Option<string>)

  /** A node's `font` object. */
  datatype Font = Font(vadjust: Option<int>, selectedVAdjust: Option<int>, color: Option<string>)

  /** The visual fields of a user record, `None` while unset. */
  datatype Visual = Visual(
    color: Option<NodeColor>,
    borderWidth: Option<int>,
    borderWidthSelected: Option<int>,
    shape: Option<string>,
    font: Option<Font>,
    size: Option<int>,
    image: Option<string>,
    defaultColor: Option<bool>)

  /** A record with none of its visual fields set. */
  const Unstyled := Visual(None, None, None, None, None, None, None, None)

  /** The fields of a user record the strategies only read. `explicitCommunity` lists the
      record's explicit-community keys and values in `Object.keys` order. */
  datatype UserFacts = UserFacts(
    explicitCommunity: seq<(string, string)>,
    isMedoid: bool,
    isAnonimous: bool,
    isAnonGroup: bool)

  /** A user record of the network's node data set. */
  class UserData {
    const id: string
    const implicitCommunity: nat
    const explicitCommunity: seq<(string, string)>
    const isMedoid: bool
    const isAnonimous: bool
    const isAnonGroup: bool

    var color: Option<NodeColor>
    var borderWidth: Option<int>
    var borderWidthSelected: Option<int>
    var shape: Option<string>
    var font: Option<Font>
    var size: Option<int>
    var image: Option<string>
    var defaultColor: Option<bool>

    function Facts(): UserFacts
    {
      UserFacts(explicitCommunity, isMedoid, isAnonimous, isAnonGroup)
    }

    /** The current values of the visual fields. */
    function Visuals(): Visual
      reads this
    {
      Visual(color, borderWidth, borderWidthSelected, shape, font, size, image, defaultColor)
    }

    constructor (id: string, implicitCommunity: nat, facts: UserFacts, v: Visual)
      ensures this.id == id && this.implicitCommunity == implicitCommunity
      ensures Facts() == facts && Visuals() == v
    {
      this.id, this.implicitCommunity := id, implicitCommunity;
      explicitCommunity, isMedoid := facts.explicitCommunity, facts.isMedoid;
      isAnonimous, isAnonGroup := facts.isAnonimous, facts.isAnonGroup;
      color, borderWidth, borderWidthSelected, shape := v.color, v.borderWidth, v.borderWidthSelected, v.shape;
      font, size, image, defaultColor := v.font, v.size, v.image, v.defaultColor;
    }
  }
}
