/** The product record and the values its fields hold, shared by the form,
    the card, the home page and the products route. */
module Products {

  datatype Option<+T> = None | Some(value: T)

  /** A numeric form field: either the empty string '' (what the form starts
      with, and what `parseFloat(value) || ''` yields for NaN or 0) or a number. */
  datatype NumField = Blank | Number(value: real)

  /** JavaScript truthiness of a numeric field: '' and 0 are falsy. */
  predicate Falsy(n: NumField)
  {
    n.Blank? || n.value == 0.0
  }

  datatype Rating = Rating(rate: NumField, count: NumField)

  /** The editable fields of a product, as the form holds them. */
  datatype Form = Form(
    title: string,
    description: string,
    image: string,
    price: NumField,
    rating: Rating)

  /** A stored product: an identifier together with the form fields. */
  datatype Product = Product(id: int, fields: Form)
  {
    function title(): string { fields.title }
  }

  /** The initial state of the form: every field empty. */
  const EmptyForm := Form("", "", "", Blank, Rating(Blank, Blank))

  /** The identifiers of a list of products, in order. */
  function Ids(ps: seq<Product>): (r: seq<int>)
    ensures |r| == |ps|
    ensures forall i :: 0 <= i < |ps| ==> r[i] == ps[i].id
  {
    if ps == [] then [] else [ps[0].id] + Ids(ps[1..])
  }
}
