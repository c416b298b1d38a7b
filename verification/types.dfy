/** Record shapes shared by the parts-resolution engine: catalog entries,
    module parameters and Bill-of-Materials lines. */
module Types {

  datatype Option<+T> = None | Some(value: T)

  /** Surface finish of a module and of every catalog part. */
  datatype Finish = Metal | Wood

  /** Kind of catalog part. */
  datatype Category = Panel | Edge | Connector | Hardware

  /** A catalog constraint on one axis: an exact target size or an
      inclusive range. An absent constraint is `None` in an `Option`. */
  datatype DimConstraint = Exact(size: real) | Range(min: real, max: real)

  /** The per-axis constraints of a catalog part; `None` leaves the axis free. */
  datatype Dimensions = Dimensions(
    width: Option<DimConstraint>,
    height: Option<DimConstraint>,
    depth: Option<DimConstraint>)

  datatype CatalogItem = CatalogItem(
    partId: string,
    description: string,
    dimensions: Dimensions,
    finish: Finish,
    category: Category)

  /** What the user configures: outer width and height (millimetres) and finish. */
  datatype ModuleParams = ModuleParams(width: real, height: real, finish: Finish)

  /** One line of a Bill of Materials. */
  datatype BomItem = BomItem(partId: string, quantity: int, description: Option<string>)

  type Bom = seq<BomItem>

  /** The part numbers of a BOM, line by line. */
  function PartIds(bom: Bom): (ids: seq<string>)
    ensures |ids| == |bom|
    ensures forall k :: 0 <= k < |bom| ==> ids[k] == bom[k].partId
  {
    seq(|bom|, k requires 0 <= k < |bom| => bom[k].partId)
  }

  /** No two lines of the BOM share a part number. */
  predicate UniqueIds(bom: Bom)
  {
    forall i, j :: 0 <= i < j < |bom| ==> bom[i].partId != bom[j].partId
  }

  /** Sum of the quantities of all lines (the "total parts" figure of the BOM view). */
  function Total(bom: Bom): int
  {
    if bom == [] then 0 else bom[0].quantity + Total(bom[1..])
  }
}
