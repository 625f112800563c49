/** The records of the marketplace, one datatype per shape the application stores or exchanges.
    JavaScript numbers are `real`; optional properties are `Option`s. */
module Types {
  import opened Wrappers

  datatype City = City(id: string, name: string, state: string, region: string)

  datatype Role = Farmer | Customer | Driver

  datatype Plan = Basic | Premium

  datatype User = User(
    id: string, email: string, password: string, name: string,
    role: Role, farmId: Option<string>, plan: Option<Plan>)

  datatype Farm = Farm(
    id: string, name: string, cityId: string, bio: string, bannerImage: string,
    videoUrl: string, images: seq<string>, available: bool)

  /** Nutrients per unit of a product. */
  datatype Nutrition = Nutrition(calories: real, proteinG: real, fiberG: real, vitaminCMg: real, ironMg: real)

  /** All five nutrients zero. */
  const NoNutrition := Nutrition(0.0, 0.0, 0.0, 0.0, 0.0)

  datatype Product = Product(
    id: string, farmId: string, name: string, description: string, unit: string,
    price: real, quantity: real, available: bool, nutrition: Nutrition, image: string)

  datatype Testimonial = Testimonial(
    id: string, author: string, role: string, farm: Option<string>, text: string, image: string)

  datatype SubscriptionStatus = Active | Paused | Cancelled

  datatype Subscription = Subscription(
    id: string, userId: string, plan: Plan, status: SubscriptionStatus, startDate: string, cityId: string)

  /** The delivery life cycle, in the order an order moves through it. */
  datatype OrderStatus = Created | Preparing | OutForDelivery | Delivered

  datatype Address = Address(
    street: string, city: string, state: string, zip: string, lat: Option<real>, lng: Option<real>)

  datatype OrderItem = OrderItem(
    productId: string, quantity: real, price: real, farmId: string, status: Option<OrderStatus>)

  datatype Order = Order(
    id: string, userId: string, subscriptionId: string, status: OrderStatus, createdAt: string,
    deliveredAt: Option<string>, items: seq<OrderItem>, total: real,
    deliveryDate: Option<string>, deliveryWindow: Option<string>, deliveryAddress: Option<Address>)

  datatype GrowthEntry = GrowthEntry(date: string, stage: string, image: Option<string>)

  datatype GrowthTimeline = GrowthTimeline(id: string, productId: string, entries: seq<GrowthEntry>)

  /** A knowledge passage for the chat assistant; an empty `city` applies to every city. */
  datatype RagDocument = RagDocument(id: string, city: string, title: string, text: string, embedding: seq<real>)

  datatype Recommendation = Recommendation(item: string, why: string)

  datatype NutritionAdvisorResult = NutritionAdvisorResult(
    targetNutrients: seq<string>, gaps: seq<string>, recommendations: seq<Recommendation>)

  /** The signed-in user as the session carries it; an empty `id` or `farmId` counts as absent. */
  datatype SessionUser = SessionUser(id: string, role: string, farmId: string)

  /** `getServerSession`: `None` when there is no session or it has no user. */
  type Session = Option<SessionUser>

  /** A signed-in user with a non-empty id (`session?.user?.id`); everyone else is answered 401. */
  predicate SignedIn(session: Session)
  {
    session.Some? && session.value.id != ""
  }

  /** An entry of the week's box: a product and a quantity of it. */
  datatype WeeklyItem = WeeklyItem(id: string, quantity: real)

  /** The status string the store writes for each order status. */
  function StatusName(s: OrderStatus): string
  {
    match s
    case Created => "created"
    case Preparing => "preparing"
    case OutForDelivery => "out_for_delivery"
    case Delivered => "delivered"
  }
}
