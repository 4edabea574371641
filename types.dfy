/** The records exchanged with the backend and shared by every screen
    (src/types/index.ts), plus the two failure-compatible wrappers that the
    model uses for JavaScript's `null` and for thrown or reported errors. */
module Types {

  /** `T | null` */
  datatype Option<+T> = None | Some(value: T)

  /** A value, or the message of the error the source raises or shows. */
  datatype Result<+T, +E> = Ok(value: T) | Err(error: E)

  /** The authenticated identity. `typeUser` is declared as 'Admin' | 'caissier'
      but arrives as JSON, so it is kept as a plain string and compared exactly. */
  datatype User = User(id: int, nom: string, prenom: string, login: string, typeUser: string)

  /** A catalog item as the backend returns it. Prices are exact reals. */
  datatype Product = Product(
    id: int,
    codeBar: string,
    referance: string,
    name: string,
    description: string,
    quantite: int,
    prixAchat: real,
    prixVente: real,
    remise: real,
    categoryId: int)

  datatype Client = Client(
    id: int,
    name: string,
    cin: string,
    dateNaiss: string,
    phone: string,
    email: string,
    address: string,
    chiffre: real)

  /** One line of the cart: the product, how many, the unit price taken when the
      line was created and the line's discount in percent. */
  datatype CartItem = CartItem(product: Product, quantity: int, prix: real, remise: real)

  datatype PaymentType = Cash | Card | Check

  /** The sale snapshot built at checkout. It has no `id`: the backend never sees it. */
  datatype SaleDraft = SaleDraft(
    clientId: Option<int>,
    items: seq<CartItem>,
    total: real,
    tva: real,
    remiseGlobale: real,
    typePaiement: PaymentType,
    dateVente: string)
}
