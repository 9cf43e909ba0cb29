/** The database records the route handlers read and write. Each table is
    modelled by the module that owns the route; these are the row shapes. */
module Entities {
  import opened Js

  /** The Prisma `PaymentMethod` enumeration. */
  datatype PaymentMethod = COD | STRIPE

  /** A coupon row. `code` is the unique key; `discount` is a percentage.
      The members-only flag is the field the checkout reads as
      `coupon.forisPlusMember`. */
  datatype Coupon = Coupon(
    code: string,
    description: string,
    discount: real,
    forNewUser: bool,
    forPlusMember: bool,
    isPublic: bool,
    expiresAt: int)

  /** A catalogue product row. `price` is the authoritative unit price and
      `storeId` the seller that owns the product. */
  datatype Product = Product(
    id: string,
    name: string,
    description: string,
    mrp: real,
    price: real,
    category: string,
    images: seq<string>,
    storeId: string)

  /** One line of an order: the unit price is captured at order time. */
  datatype OrderItem = OrderItem(productId: string, quantity: int, price: real)

  /** An order row: one per seller per checkout. `coupon` is the snapshot
      stored with the order (`{}` when no coupon was used). */
  datatype Order = Order(
    id: nat,
    userId: string,
    storeId: string,
    addressId: string,
    total: real,
    paymentMethod: PaymentMethod,
    isCouponUsed: bool,
    coupon: Option<Coupon>,
    isPaid: bool,
    orderItems: seq<OrderItem>)

  /** A seller's store row, as far as the approval workflow touches it. */
  datatype StoreRecord = StoreRecord(name: string, userId: string, status: string, isActive: bool)

  /** The cart saved on a user row: product id to quantity. */
  type Cart = map<string, int>
}
