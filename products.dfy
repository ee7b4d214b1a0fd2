/**
 * A catalogue product as the cart sees it. The catalogue (data/products) is not
 * part of this model; only the fields the cart and the checkout read are kept:
 * the identifier, the unit price in whole rupees, and two display fields.
 */
module Products {

  datatype Product = Product(id: int, name: string, image: string, price: int)
}
