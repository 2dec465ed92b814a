/** The three persisted entities. Every field is nullable, as in the Java records,
    so a freshly constructed object is all `None`. */
module Model {
  import opened Wrappers

  /** A `LocalDateTime`, kept opaque. */
  datatype Timestamp = Timestamp(ticks: int)

  /** A `BigDecimal` or `Double` amount, without rounding or floating point. */
  type Decimal = real

  /** A notification, the root entity. */
  datatype NotificationModel = NotificationModel(
    id: Option<int>,
    message: Option<string>,
    myData: Option<Decimal>,
    userId: Option<string>,
    createdAt: Option<Timestamp>,
    price: Option<Decimal>,
    notificationChannels: Option<seq<NotificationChannel>>)

  /** A channel, which belongs to one notification. */
  datatype NotificationChannel = NotificationChannel(
    id: Option<int>,
    messageTitle: Option<string>,
    amount: Option<int>,
    userId: Option<string>,
    sentAt: Option<Timestamp>,
    price: Option<Decimal>,
    notification: Option<NotificationModel>)

  /** A method, which refers to one channel and one notification. */
  datatype NotificationMethod = NotificationMethod(
    id: Option<int>,
    messageTitle: Option<string>,
    cost: Option<Decimal>,
    userId: Option<string>,
    price: Option<Decimal>,
    notificationChannelModel: Option<NotificationChannel>,
    notificationModel: Option<NotificationModel>)

  /** `new NotificationModel()` followed by `setId(id)`: a reference carrying only an id. */
  function NotificationShell(id: Option<int>): (n: NotificationModel)
    ensures n.id == id && IsNotificationShell(n)
  {
    NotificationModel(id, None, None, None, None, None, None)
  }

  /** `new NotificationChannel()` followed by `setId(id)`. */
  function ChannelShell(id: Option<int>): (c: NotificationChannel)
    ensures c.id == id && IsChannelShell(c)
  {
    NotificationChannel(id, None, None, None, None, None, None)
  }

  /** Every field but the id is unset. */
  predicate IsNotificationShell(n: NotificationModel)
  {
    n.message.None? && n.myData.None? && n.userId.None? && n.createdAt.None?
    && n.price.None? && n.notificationChannels.None?
  }

  predicate IsChannelShell(c: NotificationChannel)
  {
    c.messageTitle.None? && c.amount.None? && c.userId.None? && c.sentAt.None?
    && c.price.None? && c.notification.None?
  }

  /** The shells are exactly the id-only records. */
  lemma ShellsAreIdOnly(n: NotificationModel, c: NotificationChannel)
    ensures IsNotificationShell(n) <==> n == NotificationShell(n.id)
    ensures IsChannelShell(c) <==> c == ChannelShell(c.id)
  {
  }
}
