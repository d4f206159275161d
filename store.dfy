/**
 * The persistent state the handlers read and write: one map per table, keyed
 * by the row id (or by the table's unique key where the handlers look rows up
 * by it). Enumerations are the database's enum columns.
 */
module Store {
  import opened Common

  type Id = string

  datatype Role = USER | ADMIN
  datatype CustomerType = INDIVIDUAL | BUSINESS
  datatype Plan = MONTHLY | QUARTERLY | ANNUAL
  datatype SubscriptionStatus = ACTIVE | PAUSED | CANCELLED | EXPIRED
  datatype PaymentStatus = PENDING | PAID | FAILED | CANCELLED
  datatype OrderStatus = PENDING | PROCESSING | SHIPPED | DELIVERED | CANCELLED
  datatype AddressType = SHIPPING | BILLING

  datatype User = User(email: string, passwordHash: string, role: Role)

  /** A user's profile; stored under the owner's user id (one profile per user). */
  datatype Profile = Profile(
    id: Id, firstName: string, lastName: string, phone: Option<string>,
    customerType: CustomerType, taxId: Option<string>, preferredLanguage: string)

  datatype Address = Address(
    profileId: Id, addressType: AddressType, street: string, city: string,
    region: string, postalCode: string, country: string, isDefault: bool, createdAt: Time)

  datatype Product = Product(
    category: string, price: int, image: Option<string>, images: seq<string>,
    inStock: bool, stock: int, lowStockThreshold: int, trackInventory: bool,
    featured: bool, sortOrder: int,
    audioUrl: Option<string>, audioTitle: Option<string>, audioDuration: Option<int>)

  /** A product's texts in one language; stored under (product id, language). */
  datatype Translation = Translation(
    name: string, description: string, longDescription: string, features: seq<string>)

  /** A cart; stored under its owner's user id (one cart per user). */
  datatype Cart = Cart(id: Id, updatedAt: Time)

  /** A cart line with the name, price and image captured when it was added. */
  datatype CartItem = CartItem(
    cartId: Id, productId: Id, quantity: int, name: string, price: int, image: string)

  datatype AddressSnapshot = AddressSnapshot(street: string, city: string, postalCode: string, country: string)

  datatype OrderItem = OrderItem(productId: Id, name: string, price: int, quantity: int, image: string)

  /** An order with its customer and address snapshots; its items are created with it. */
  datatype Order = Order(
    userId: Id, status: OrderStatus, paymentStatus: PaymentStatus,
    customerType: CustomerType, firstName: string, lastName: string, email: string,
    phone: string, taxId: Option<string>,
    subtotal: int, shippingCost: int, total: int,
    shipping: AddressSnapshot, billing: AddressSnapshot, items: seq<OrderItem>,
    webpayToken: Option<string>, webpayTransactionId: Option<string>,
    trackingNumber: Option<string>, carrier: Option<string>, adminNotes: Option<string>,
    shippedAt: Option<Time>)

  datatype InvoiceLine = InvoiceLine(productName: string, quantity: int, unitPrice: int, total: int)

  /** An issued invoice; its id is its invoice number. */
  datatype Invoice = Invoice(
    orderId: Id, userId: Id, customerType: CustomerType, customerName: string,
    customerTaxId: string, customerEmail: string, customerAddress: string,
    items: seq<InvoiceLine>, subtotal: int, taxAmount: int, shippingCost: int, total: int,
    status: string, pdfUrl: string)

  datatype Subscription = Subscription(
    userId: Id, planId: Plan, status: SubscriptionStatus, paymentStatus: PaymentStatus,
    autoRenew: bool, amount: int,
    startedAt: Option<Time>, expiresAt: Option<Time>, nextRenewal: Option<Time>,
    lastPaymentDate: Option<Time>, webpayToken: Option<string>, webpayTransactionId: Option<string>)

  /** Audio content; `requiredPlan` is a plan tag, absent for content open to every plan. */
  datatype AudioContent = AudioContent(
    fileUrl: string, isPreview: bool, requiredPlan: Option<string>, sortOrder: int)

  /** A one-time access key; stored under its key code. */
  datatype AccessKey = AccessKey(
    planId: string, durationMonths: int, isRedeemed: bool, redeemedAt: Option<Time>,
    redeemedByUserId: Option<Id>, expiresAt: Option<Time>)

  datatype Review = Review(
    productId: Id, userId: Id, rating: int, comment: Option<string>, verified: bool)

  /** A wishlist entry; stored under (user id, product id). */
  datatype WishlistItem = WishlistItem(id: Id, createdAt: Time)

  /** The database: every table the handlers touch. */
  class Db {
    var users: map<Id, User>
    var profiles: map<Id, Profile>
    var addresses: map<Id, Address>
    var products: map<Id, Product>
    var translations: map<(Id, string), Translation>
    var carts: map<Id, Cart>
    var cartItems: map<Id, CartItem>
    var orders: map<Id, Order>
    var invoices: map<Id, Invoice>
    var subscriptions: map<Id, Subscription>
    var audio: map<Id, AudioContent>
    var accessKeys: map<string, AccessKey>
    var reviews: map<Id, Review>
    var wishlist: map<(Id, Id), WishlistItem>

    constructor ()
      ensures users == map[] && profiles == map[] && addresses == map[]
      ensures products == map[] && translations == map[]
      ensures carts == map[] && cartItems == map[] && orders == map[] && invoices == map[]
      ensures subscriptions == map[] && audio == map[] && accessKeys == map[]
      ensures reviews == map[] && wishlist == map[]
    {
      users, profiles, addresses := map[], map[], map[];
      products, translations := map[], map[];
      carts, cartItems, orders, invoices := map[], map[], map[], map[];
      subscriptions, audio, accessKeys := map[], map[], map[];
      reviews, wishlist := map[], map[];
    }
  }

  /** The addresses that belong to a user, through the user's profile. */
  function OwnedAddress(profiles: map<Id, Profile>, addresses: map<Id, Address>, userId: Id, addressId: Id): (r: Option<Address>)
    ensures r.Some? <==> userId in profiles && addressId in addresses
                         && addresses[addressId].profileId == profiles[userId].id
    ensures r.Some? ==> r.value == addresses[addressId]
  {
    if userId in profiles && addressId in addresses && addresses[addressId].profileId == profiles[userId].id
    then Some(addresses[addressId]) else None
  }
}
