/** The records of the catalogue and the company document that embeds them
    (the models package). Every record is a value: the store holds copies, and a
    material embedded in a product, or a supplier embedded in a material, is a
    snapshot that later updates do not reach. */
module Entities {
  import opened EmbeddedArray

  /** A float64 price, kept as its IEEE-754 bit pattern: it is stored and
      compared, never computed on. */
  type Price = bv64

  datatype Supplier = Supplier(id: string, name: string, country: string, city: string)

  datatype Material = Material(
    id: string,
    name: string,
    supplier: Supplier,
    origin: string,
    sustainable: bool,
    details: string,
    lastOrder: string)

  datatype Product = Product(
    id: string,
    name: string,
    madeIn: string,
    materials: seq<Material>,
    price: Price,
    description: string,
    sustainablePackage: bool)

  datatype Cert = Cert(id: string, name: string, issuer: string, details: string)

  /** The root document: a name and the four embedded arrays. */
  datatype Company = Company(
    name: string,
    products: Field<Product>,
    materials: Field<Material>,
    suppliers: Field<Supplier>,
    certs: Field<Cert>)

  /** The conditions the repositories report instead of a value. */
  datatype Error =
    | NotFound        // no element with the id, or no element with the relation
    | FieldMissing    // the company document lacks the array field
    | NotAnArray      // the store refuses `$push` or `$pull` on a field holding null
    | StoreFault      // the company lookup failed for a reason other than "no documents"
    | NothingDeleted  // the removal matched no document ("something went wrong")

  function SupplierId(s: Supplier): string { s.id }
  function MaterialId(m: Material): string { m.id }
  function ProductId(p: Product): string { p.id }
  function CertId(c: Cert): string { c.id }
}
