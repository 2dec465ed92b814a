/** The three request bodies and the Bean Validation constraints declared on their fields. */
module Request {
  import opened Wrappers
  import opened Text
  import opened Model

  /** The annotated properties of the request bodies, by the label their messages use. */
  datatype Field =
    | MessageField | MyDataField | UserIdField | PriceField | MessageTitleField
    | AmountField | NotificationField | CostField
    | NotificationChannelModelField | NotificationModelField

  /** The constraint annotations the request bodies use. */
  datatype Rule = NotNullRule | NotBlankRule | PositiveRule

  /** One constraint violation: the property and the annotation it failed. */
  datatype Violation = Violation(field: Field, rule: Rule)

  /** The property label that starts every message of the field. */
  function Label(f: Field): (s: string)
    ensures |s| > 0
  {
    match f
    case MessageField => "Message"
    case MyDataField => "My Data"
    case UserIdField => "User Id"
    case PriceField => "Price"
    case MessageTitleField => "Message Title"
    case AmountField => "Amount"
    case NotificationField => "Notification"
    case CostField => "Cost"
    case NotificationChannelModelField => "Notification Channel Model"
    case NotificationModelField => "Notification Model"
  }

  /** The text that follows the label in every message of the annotation. */
  function RuleText(rule: Rule): (e: string)
    ensures |e| > 0 && e[0] == ' '
  {
    match rule
    case NotNullRule => " cannot be null"
    case NotBlankRule => " cannot be blank"
    case PositiveRule => " must be a positive number"
  }

  /** The `message` attribute of the annotation that reported `v`: the field's
      label, then the rule's text. */
  function MessageOf(v: Violation): (m: string)
    ensures |m| == |Label(v.field)| + |RuleText(v.rule)|
    ensures m[..|Label(v.field)|] == Label(v.field)
    ensures m[|Label(v.field)|..] == RuleText(v.rule)
  {
    var m := Label(v.field) + RuleText(v.rule);
    assert m[..|Label(v.field)|] == Label(v.field);
    m
  }

  /** No two fields share a label. */
  lemma LabelInjective(f: Field, g: Field)
    requires Label(f) == Label(g)
    ensures f == g
  {
    var s := Label(f);
    assert |s| == |Label(g)|;
    if |s| == 7 {
      assert s[0] == Label(g)[0] && s[1] == Label(g)[1];
    }
  }

  /** A message names exactly one violation, so the reported messages determine the
      reported (field, rule) pairs. */
  lemma MessageOfInjective(a: Violation, b: Violation)
    requires MessageOf(a) == MessageOf(b)
    ensures a == b
  {
    var m := MessageOf(a);
    var ea, eb := RuleText(a.rule), RuleText(b.rule);
    assert m[|m| - 1] == ea[|ea| - 1] && m[|m| - 1] == eb[|eb| - 1];
    assert ea[|ea| - 1] == eb[|eb| - 1];
    RuleTextLastChar(a.rule, b.rule);
    assert |Label(a.field)| == |Label(b.field)|;
    LabelInjective(a.field, b.field);
  }

  /** No two rules share a text: their last characters already differ. */
  lemma RuleTextLastChar(a: Rule, b: Rule)
    requires RuleText(a)[|RuleText(a)| - 1] == RuleText(b)[|RuleText(b)| - 1]
    ensures a == b
  {
  }

  /** `@NotNull @NotBlank` holds of a string field. */
  predicate PresentNotBlank(s: Option<string>) { s.Some? && NotBlank(s.value) }

  /** `@Positive @NotNull` holds of a decimal field. */
  predicate PresentPositive(x: Option<Decimal>) { x.Some? && x.value > 0.0 }

  /** `@Positive @NotNull` holds of a `Long` field. */
  predicate PresentPositiveLong(x: Option<int>) { x.Some? && x.value > 0 }

  /** Whether `rule` rejects a string value. `@NotBlank` rejects null as well, so a
      null string fails both of its annotations. */
  predicate StringFails(s: Option<string>, rule: Rule) {
    match rule
    case NotNullRule => s.None?
    case NotBlankRule => s.None? || !NotBlank(s.value)
    case PositiveRule => false
  }

  /** Whether `rule` rejects a decimal value. `@Positive` accepts null, so a null
      value fails only `@NotNull`. */
  predicate DecimalFails(x: Option<Decimal>, rule: Rule) {
    match rule
    case NotNullRule => x.None?
    case PositiveRule => x.Some? && x.value <= 0.0
    case NotBlankRule => false
  }

  /** Whether `rule` rejects a `Long` value. */
  predicate LongFails(x: Option<int>, rule: Rule) {
    match rule
    case NotNullRule => x.None?
    case PositiveRule => x.Some? && x.value <= 0
    case NotBlankRule => false
  }

  /* A failing annotation breaks its field's constraint; the three lemmas below let
     the ReportsNothing proofs go one field at a time. */

  lemma StringFailureBreaks(s: Option<string>, rule: Rule)
    requires StringFails(s, rule)
    ensures !PresentNotBlank(s)
  {
  }

  lemma DecimalFailureBreaks(x: Option<Decimal>, rule: Rule)
    requires DecimalFails(x, rule)
    ensures !PresentPositive(x)
  {
  }

  lemma LongFailureBreaks(x: Option<int>, rule: Rule)
    requires LongFails(x, rule)
    ensures !PresentPositiveLong(x)
  {
  }

  /** Body of the request that creates or updates a notification. */
  datatype NotificationDtoRequest = NotificationDtoRequest(
    message: Option<string>,
    myData: Option<Decimal>,
    userId: Option<string>,
    price: Option<Decimal>)
  {
    /** Every field constraint holds; the request is accepted exactly when the
        validator reports nothing. */
    predicate Valid()
      ensures Valid() <==> Violations() == {}
    {
      NotificationReportsNothing(this, Violations());
      PresentNotBlank(message) && PresentPositive(myData)
        && PresentNotBlank(userId) && PresentPositive(price)
    }

    /** The violations the validator reports: each one exactly when its
        constraint fails, and no other. */
    function Violations(): (r: set<Violation>)
      ensures Violation(MessageField, NotNullRule) in r <==> message.None?
      ensures Violation(MessageField, NotBlankRule) in r <==> !PresentNotBlank(message)
      ensures Violation(MyDataField, NotNullRule) in r <==> myData.None?
      ensures Violation(MyDataField, PositiveRule) in r <==> myData.Some? && myData.value <= 0.0
      ensures Violation(UserIdField, NotNullRule) in r <==> userId.None?
      ensures Violation(UserIdField, NotBlankRule) in r <==> !PresentNotBlank(userId)
      ensures Violation(PriceField, NotNullRule) in r <==> price.None?
      ensures Violation(PriceField, PositiveRule) in r <==> price.Some? && price.value <= 0.0
      ensures r <= Declared()
    {
      var r := set v | v in Declared() && Fails(v);
      NotificationReportsMessage(this, r);
      NotificationReportsMyData(this, r);
      NotificationReportsUserId(this, r);
      NotificationReportsPrice(this, r);
      r
    }

    /** The constraint annotations declared on the fields. */
    function Declared(): set<Violation> {
      {Violation(MessageField, NotNullRule), Violation(MessageField, NotBlankRule),
       Violation(MyDataField, PositiveRule), Violation(MyDataField, NotNullRule),
       Violation(UserIdField, NotNullRule), Violation(UserIdField, NotBlankRule),
       Violation(PriceField, PositiveRule), Violation(PriceField, NotNullRule)}
    }

    /** Whether the annotation `v` rejects the value of its field. */
    predicate Fails(v: Violation) {
      match v.field
      case MessageField => StringFails(message, v.rule)
      case MyDataField => DecimalFails(myData, v.rule)
      case UserIdField => StringFails(userId, v.rule)
      case PriceField => DecimalFails(price, v.rule)
      case _ => false
    }
  }

  /* One lemma per field: which of the field's annotations end up in the report.
     Violations() calls them, one field at a time, to keep each proof small. */

  /** Nothing is reported exactly when every constraint holds. */
  lemma NotificationReportsNothing(q: NotificationDtoRequest, r: set<Violation>)
    requires r == set v | v in q.Declared() && q.Fails(v)
    ensures r == {} <==>
              PresentNotBlank(q.message) && PresentPositive(q.myData)
              && PresentNotBlank(q.userId) && PresentPositive(q.price)
  {
    forall v | v in r
      ensures !(PresentNotBlank(q.message) && PresentPositive(q.myData)
                && PresentNotBlank(q.userId) && PresentPositive(q.price))
    {
      if v.field == MessageField { StringFailureBreaks(q.message, v.rule); }
      if v.field == MyDataField { DecimalFailureBreaks(q.myData, v.rule); }
      if v.field == UserIdField { StringFailureBreaks(q.userId, v.rule); }
      if v.field == PriceField { DecimalFailureBreaks(q.price, v.rule); }
    }
    if !PresentNotBlank(q.message) {
      assert Violation(MessageField, NotBlankRule) in r;
    }
    if !PresentPositive(q.myData) {
      assert Violation(MyDataField, NotNullRule) in r || Violation(MyDataField, PositiveRule) in r;
    }
    if !PresentNotBlank(q.userId) {
      assert Violation(UserIdField, NotBlankRule) in r;
    }
    if !PresentPositive(q.price) {
      assert Violation(PriceField, NotNullRule) in r || Violation(PriceField, PositiveRule) in r;
    }
  }

  lemma NotificationReportsMessage(q: NotificationDtoRequest, r: set<Violation>)
    requires r == set v | v in q.Declared() && q.Fails(v)
    ensures Violation(MessageField, NotNullRule) in r <==> q.message.None?
    ensures Violation(MessageField, NotBlankRule) in r <==> !PresentNotBlank(q.message)
  {
  }

  lemma NotificationReportsMyData(q: NotificationDtoRequest, r: set<Violation>)
    requires r == set v | v in q.Declared() && q.Fails(v)
    ensures Violation(MyDataField, NotNullRule) in r <==> q.myData.None?
    ensures Violation(MyDataField, PositiveRule) in r <==>
              q.myData.Some? && q.myData.value <= 0.0
  {
  }

  lemma NotificationReportsUserId(q: NotificationDtoRequest, r: set<Violation>)
    requires r == set v | v in q.Declared() && q.Fails(v)
    ensures Violation(UserIdField, NotNullRule) in r <==> q.userId.None?
    ensures Violation(UserIdField, NotBlankRule) in r <==> !PresentNotBlank(q.userId)
  {
  }

  lemma NotificationReportsPrice(q: NotificationDtoRequest, r: set<Violation>)
    requires r == set v | v in q.Declared() && q.Fails(v)
    ensures Violation(PriceField, NotNullRule) in r <==> q.price.None?
    ensures Violation(PriceField, PositiveRule) in r <==> q.price.Some? && q.price.value <= 0.0
  {
  }

  /** Body of the request that creates or updates a channel. */
  datatype NotificationChannelDtoRequest = NotificationChannelDtoRequest(
    messageTitle: Option<string>,
    amount: Option<int>,
    userId: Option<string>,
    price: Option<Decimal>,
    notificationId: Option<int>)
  {
    predicate Valid()
      ensures Valid() <==> Violations() == {}
    {
      ChannelReportsNothing(this, Violations());
      PresentNotBlank(messageTitle) && PresentPositiveLong(amount) && PresentNotBlank(userId)
        && PresentPositive(price) && PresentPositiveLong(notificationId)
    }

    function Violations(): (r: set<Violation>)
      ensures Violation(MessageTitleField, NotNullRule) in r <==> messageTitle.None?
      ensures Violation(MessageTitleField, NotBlankRule) in r <==>
                !PresentNotBlank(messageTitle)
      ensures Violation(AmountField, NotNullRule) in r <==> amount.None?
      ensures Violation(AmountField, PositiveRule) in r <==> amount.Some? && amount.value <= 0
      ensures Violation(UserIdField, NotNullRule) in r <==> userId.None?
      ensures Violation(UserIdField, NotBlankRule) in r <==> !PresentNotBlank(userId)
      ensures Violation(PriceField, NotNullRule) in r <==> price.None?
      ensures Violation(PriceField, PositiveRule) in r <==> price.Some? && price.value <= 0.0
      ensures Violation(NotificationField, NotNullRule) in r <==> notificationId.None?
      ensures Violation(NotificationField, PositiveRule) in r <==>
                notificationId.Some? && notificationId.value <= 0
      ensures r <= Declared()
    {
      var r := set v | v in Declared() && Fails(v);
      ChannelReportsTitle(this, r);
      ChannelReportsAmount(this, r);
      ChannelReportsUserId(this, r);
      ChannelReportsPrice(this, r);
      ChannelReportsNotification(this, r);
      r
    }

    function Declared(): set<Violation> {
      {Violation(MessageTitleField, NotNullRule), Violation(MessageTitleField, NotBlankRule),
       Violation(AmountField, PositiveRule), Violation(AmountField, NotNullRule),
       Violation(UserIdField, NotNullRule), Violation(UserIdField, NotBlankRule),
       Violation(PriceField, PositiveRule), Violation(PriceField, NotNullRule),
       Violation(NotificationField, PositiveRule), Violation(NotificationField, NotNullRule)}
    }

    predicate Fails(v: Violation) {
      match v.field
      case MessageTitleField => StringFails(messageTitle, v.rule)
      case AmountField => LongFails(amount, v.rule)
      case UserIdField => StringFails(userId, v.rule)
      case PriceField => DecimalFails(price, v.rule)
      case NotificationField => LongFails(notificationId, v.rule)
      case _ => false
    }
  }

  /** Nothing is reported exactly when every constraint holds. */
  lemma ChannelReportsNothing(q: NotificationChannelDtoRequest, r: set<Violation>)
    requires r == set v | v in q.Declared() && q.Fails(v)
    ensures r == {} <==>
              PresentNotBlank(q.messageTitle) && PresentPositiveLong(q.amount) && PresentNotBlank(q.userId)
              && PresentPositive(q.price) && PresentPositiveLong(q.notificationId)
  {
    forall v | v in r
      ensures !(PresentNotBlank(q.messageTitle) && PresentPositiveLong(q.amount) && PresentNotBlank(q.userId)
                && PresentPositive(q.price) && PresentPositiveLong(q.notificationId))
    {
      if v.field == MessageTitleField { StringFailureBreaks(q.messageTitle, v.rule); }
      if v.field == AmountField { LongFailureBreaks(q.amount, v.rule); }
      if v.field == UserIdField { StringFailureBreaks(q.userId, v.rule); }
      if v.field == PriceField { DecimalFailureBreaks(q.price, v.rule); }
      if v.field == NotificationField { LongFailureBreaks(q.notificationId, v.rule); }
    }
    if !PresentNotBlank(q.messageTitle) {
      assert Violation(MessageTitleField, NotBlankRule) in r;
    }
    if !PresentPositiveLong(q.amount) {
      assert Violation(AmountField, NotNullRule) in r || Violation(AmountField, PositiveRule) in r;
    }
    if !PresentNotBlank(q.userId) {
      assert Violation(UserIdField, NotBlankRule) in r;
    }
    if !PresentPositive(q.price) {
      assert Violation(PriceField, NotNullRule) in r || Violation(PriceField, PositiveRule) in r;
    }
    if !PresentPositiveLong(q.notificationId) {
      assert Violation(NotificationField, NotNullRule) in r || Violation(NotificationField, PositiveRule) in r;
    }
  }

  lemma ChannelReportsTitle(q: NotificationChannelDtoRequest, r: set<Violation>)
    requires r == set v | v in q.Declared() && q.Fails(v)
    ensures Violation(MessageTitleField, NotNullRule) in r <==> q.messageTitle.None?
    ensures Violation(MessageTitleField, NotBlankRule) in r <==>
              !PresentNotBlank(q.messageTitle)
  {
  }

  lemma ChannelReportsAmount(q: NotificationChannelDtoRequest, r: set<Violation>)
    requires r == set v | v in q.Declared() && q.Fails(v)
    ensures Violation(AmountField, NotNullRule) in r <==> q.amount.None?
    ensures Violation(AmountField, PositiveRule) in r <==> q.amount.Some? && q.amount.value <= 0
  {
  }

  lemma ChannelReportsUserId(q: NotificationChannelDtoRequest, r: set<Violation>)
    requires r == set v | v in q.Declared() && q.Fails(v)
    ensures Violation(UserIdField, NotNullRule) in r <==> q.userId.None?
    ensures Violation(UserIdField, NotBlankRule) in r <==> !PresentNotBlank(q.userId)
  {
  }

  lemma ChannelReportsPrice(q: NotificationChannelDtoRequest, r: set<Violation>)
    requires r == set v | v in q.Declared() && q.Fails(v)
    ensures Violation(PriceField, NotNullRule) in r <==> q.price.None?
    ensures Violation(PriceField, PositiveRule) in r <==> q.price.Some? && q.price.value <= 0.0
  {
  }

  lemma ChannelReportsNotification(q: NotificationChannelDtoRequest, r: set<Violation>)
    requires r == set v | v in q.Declared() && q.Fails(v)
    ensures Violation(NotificationField, NotNullRule) in r <==> q.notificationId.None?
    ensures Violation(NotificationField, PositiveRule) in r <==>
              q.notificationId.Some? && q.notificationId.value <= 0
  {
  }

  /** Body of the request that creates or updates a method. */
  datatype NotificationMethodDtoRequest = NotificationMethodDtoRequest(
    messageTitle: Option<string>,
    cost: Option<Decimal>,
    userId: Option<string>,
    price: Option<Decimal>,
    notificationChannelId: Option<int>,
    notificationId: Option<int>)
  {
    predicate Valid()
      ensures Valid() <==> Violations() == {}
    {
      MethodReportsNothing(this, Violations());
      PresentNotBlank(messageTitle) && PresentPositive(cost) && PresentNotBlank(userId)
        && PresentPositive(price) && PresentPositiveLong(notificationChannelId)
        && PresentPositiveLong(notificationId)
    }

    function Violations(): (r: set<Violation>)
      ensures Violation(MessageTitleField, NotNullRule) in r <==> messageTitle.None?
      ensures Violation(MessageTitleField, NotBlankRule) in r <==>
                !PresentNotBlank(messageTitle)
      ensures Violation(CostField, NotNullRule) in r <==> cost.None?
      ensures Violation(CostField, PositiveRule) in r <==> cost.Some? && cost.value <= 0.0
      ensures Violation(UserIdField, NotNullRule) in r <==> userId.None?
      ensures Violation(UserIdField, NotBlankRule) in r <==> !PresentNotBlank(userId)
      ensures Violation(PriceField, NotNullRule) in r <==> price.None?
      ensures Violation(PriceField, PositiveRule) in r <==> price.Some? && price.value <= 0.0
      ensures Violation(NotificationChannelModelField, NotNullRule) in r <==>
                notificationChannelId.None?
      ensures Violation(NotificationChannelModelField, PositiveRule) in r <==>
                notificationChannelId.Some? && notificationChannelId.value <= 0
      ensures Violation(NotificationModelField, NotNullRule) in r <==> notificationId.None?
      ensures Violation(NotificationModelField, PositiveRule) in r <==>
                notificationId.Some? && notificationId.value <= 0
      ensures r <= Declared()
    {
      var r := set v | v in Declared() && Fails(v);
      MethodReportsTitle(this, r);
      MethodReportsCost(this, r);
      MethodReportsUserId(this, r);
      MethodReportsPrice(this, r);
      MethodReportsChannel(this, r);
      MethodReportsNotification(this, r);
      r
    }

    function Declared(): set<Violation> {
      {Violation(MessageTitleField, NotNullRule), Violation(MessageTitleField, NotBlankRule),
       Violation(CostField, PositiveRule), Violation(CostField, NotNullRule),
       Violation(UserIdField, NotNullRule), Violation(UserIdField, NotBlankRule),
       Violation(PriceField, PositiveRule), Violation(PriceField, NotNullRule),
       Violation(NotificationChannelModelField, PositiveRule),
       Violation(NotificationChannelModelField, NotNullRule),
       Violation(NotificationModelField, PositiveRule),
       Violation(NotificationModelField, NotNullRule)}
    }

    predicate Fails(v: Violation) {
      match v.field
      case MessageTitleField => StringFails(messageTitle, v.rule)
      case CostField => DecimalFails(cost, v.rule)
      case UserIdField => StringFails(userId, v.rule)
      case PriceField => DecimalFails(price, v.rule)
      case NotificationChannelModelField => LongFails(notificationChannelId, v.rule)
      case NotificationModelField => LongFails(notificationId, v.rule)
      case _ => false
    }
  }

  /** Nothing is reported exactly when every constraint holds. */
  lemma MethodReportsNothing(q: NotificationMethodDtoRequest, r: set<Violation>)
    requires r == set v | v in q.Declared() && q.Fails(v)
    ensures r == {} <==>
              PresentNotBlank(q.messageTitle) && PresentPositive(q.cost) && PresentNotBlank(q.userId)
              && PresentPositive(q.price) && PresentPositiveLong(q.notificationChannelId)
              && PresentPositiveLong(q.notificationId)
  {
    forall v | v in r
      ensures !(PresentNotBlank(q.messageTitle) && PresentPositive(q.cost) && PresentNotBlank(q.userId)
                && PresentPositive(q.price) && PresentPositiveLong(q.notificationChannelId) && PresentPositiveLong(q.notificationId))
    {
      if v.field == MessageTitleField { StringFailureBreaks(q.messageTitle, v.rule); }
      if v.field == CostField { DecimalFailureBreaks(q.cost, v.rule); }
      if v.field == UserIdField { StringFailureBreaks(q.userId, v.rule); }
      if v.field == PriceField { DecimalFailureBreaks(q.price, v.rule); }
      if v.field == NotificationChannelModelField { LongFailureBreaks(q.notificationChannelId, v.rule); }
      if v.field == NotificationModelField { LongFailureBreaks(q.notificationId, v.rule); }
    }
    if !PresentNotBlank(q.messageTitle) {
      assert Violation(MessageTitleField, NotBlankRule) in r;
    }
    if !PresentPositive(q.cost) {
      assert Violation(CostField, NotNullRule) in r || Violation(CostField, PositiveRule) in r;
    }
    if !PresentNotBlank(q.userId) {
      assert Violation(UserIdField, NotBlankRule) in r;
    }
    if !PresentPositive(q.price) {
      assert Violation(PriceField, NotNullRule) in r || Violation(PriceField, PositiveRule) in r;
    }
    if !PresentPositiveLong(q.notificationChannelId) {
      assert Violation(NotificationChannelModelField, NotNullRule) in r || Violation(NotificationChannelModelField, PositiveRule) in r;
    }
    if !PresentPositiveLong(q.notificationId) {
      assert Violation(NotificationModelField, NotNullRule) in r || Violation(NotificationModelField, PositiveRule) in r;
    }
  }

  lemma MethodReportsTitle(q: NotificationMethodDtoRequest, r: set<Violation>)
    requires r == set v | v in q.Declared() && q.Fails(v)
    ensures Violation(MessageTitleField, NotNullRule) in r <==> q.messageTitle.None?
    ensures Violation(MessageTitleField, NotBlankRule) in r <==>
              !PresentNotBlank(q.messageTitle)
  {
  }

  lemma MethodReportsCost(q: NotificationMethodDtoRequest, r: set<Violation>)
    requires r == set v | v in q.Declared() && q.Fails(v)
    ensures Violation(CostField, NotNullRule) in r <==> q.cost.None?
    ensures Violation(CostField, PositiveRule) in r <==> q.cost.Some? && q.cost.value <= 0.0
  {
  }

  lemma MethodReportsUserId(q: NotificationMethodDtoRequest, r: set<Violation>)
    requires r == set v | v in q.Declared() && q.Fails(v)
    ensures Violation(UserIdField, NotNullRule) in r <==> q.userId.None?
    ensures Violation(UserIdField, NotBlankRule) in r <==> !PresentNotBlank(q.userId)
  {
  }

  lemma MethodReportsPrice(q: NotificationMethodDtoRequest, r: set<Violation>)
    requires r == set v | v in q.Declared() && q.Fails(v)
    ensures Violation(PriceField, NotNullRule) in r <==> q.price.None?
    ensures Violation(PriceField, PositiveRule) in r <==> q.price.Some? && q.price.value <= 0.0
  {
  }

  lemma MethodReportsChannel(q: NotificationMethodDtoRequest, r: set<Violation>)
    requires r == set v | v in q.Declared() && q.Fails(v)
    ensures Violation(NotificationChannelModelField, NotNullRule) in r <==>
              q.notificationChannelId.None?
    ensures Violation(NotificationChannelModelField, PositiveRule) in r <==>
              q.notificationChannelId.Some? && q.notificationChannelId.value <= 0
  {
  }

  lemma MethodReportsNotification(q: NotificationMethodDtoRequest, r: set<Violation>)
    requires r == set v | v in q.Declared() && q.Fails(v)
    ensures Violation(NotificationModelField, NotNullRule) in r <==> q.notificationId.None?
    ensures Violation(NotificationModelField, PositiveRule) in r <==>
              q.notificationId.Some? && q.notificationId.value <= 0
  {
  }

  /** The "{}" body: every field null, so every `@NotNull` fires, `@NotBlank` fires on
      both strings, and `@Positive` stays silent. */
  lemma EmptyNotificationRequestRejected()
    ensures var r := NotificationDtoRequest(None, None, None, None);
      !r.Valid()
      && r.Violations()
         == {Violation(MessageField, NotNullRule), Violation(MessageField, NotBlankRule),
             Violation(MyDataField, NotNullRule), Violation(UserIdField, NotNullRule),
             Violation(UserIdField, NotBlankRule), Violation(PriceField, NotNullRule)}
  {
    var r := NotificationDtoRequest(None, None, None, None);
    var silent := {Violation(MyDataField, PositiveRule), Violation(PriceField, PositiveRule)};
    assert r.Violations() == r.Declared() - silent;
  }

  /** The messages the `{}` body draws: the four "cannot be null" texts and the two
      "cannot be blank" texts, one per reported violation. */
  lemma EmptyNotificationRequestMessages()
    ensures var r := NotificationDtoRequest(None, None, None, None);
      (set v | v in r.Violations() :: MessageOf(v))
      == {"Message cannot be null", "Message cannot be blank", "My Data cannot be null",
          "User Id cannot be null", "User Id cannot be blank", "Price cannot be null"}
  {
    EmptyNotificationRequestRejected();
    MessageFieldTexts();
    UserIdFieldTexts();
    MyDataAndPriceTexts();
  }

  /* The message texts declared on the notification request's `@NotNull` and
     `@NotBlank` annotations, two per lemma to keep each proof small. */

  lemma MessageFieldTexts()
    ensures MessageOf(Violation(MessageField, NotNullRule)) == "Message cannot be null"
    ensures MessageOf(Violation(MessageField, NotBlankRule)) == "Message cannot be blank"
  {
    assert "Message" + RuleText(NotNullRule) == "Message cannot be null";
    assert "Message" + RuleText(NotBlankRule) == "Message cannot be blank";
  }

  lemma UserIdFieldTexts()
    ensures MessageOf(Violation(UserIdField, NotNullRule)) == "User Id cannot be null"
    ensures MessageOf(Violation(UserIdField, NotBlankRule)) == "User Id cannot be blank"
  {
    assert "User Id" + RuleText(NotNullRule) == "User Id cannot be null";
    assert "User Id" + RuleText(NotBlankRule) == "User Id cannot be blank";
  }

  lemma MyDataAndPriceTexts()
    ensures MessageOf(Violation(MyDataField, NotNullRule)) == "My Data cannot be null"
    ensures MessageOf(Violation(PriceField, NotNullRule)) == "Price cannot be null"
  {
    assert "My Data" + RuleText(NotNullRule) == "My Data cannot be null";
    assert "Price" + RuleText(NotNullRule) == "Price cannot be null";
  }

  /** A string field passes `@NotNull @NotBlank` exactly when it is present and has a
      character above U+0020 (the validator trims, it does not test for Unicode whitespace). */
  lemma PresentNotBlankIffVisibleChar(s: Option<string>)
    ensures PresentNotBlank(s) <==> s.Some? && exists i :: 0 <= i < |s.value| && s.value[i] > ' '
  {
  }
}
