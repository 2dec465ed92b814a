/** Conversion of notification requests to entities and of entities to responses. */
module NotificationDtoMapper {
  import opened Wrappers
  import opened Model
  import opened Request

  /** The body returned for a notification. */
  datatype NotificationDtoResponse = NotificationDtoResponse(
    id: Option<int>,
    message: Option<string>,
    myData: Option<Decimal>,
    userId: Option<string>,
    createdAt: Option<Timestamp>,
    price: Option<Decimal>)

  /** `toModel`: a fresh entity that copies the request and leaves everything the
      store owns unset. */
  function ToModel(request: NotificationDtoRequest): (m: NotificationModel)
    ensures m.message == request.message && m.myData == request.myData
    ensures m.userId == request.userId && m.price == request.price
    ensures m.id.None? && m.createdAt.None? && m.notificationChannels.None?
  {
    NotificationModel(None, request.message, request.myData, request.userId, None, request.price, None)
  }

  /** `toResponse`: exactly the six scalar fields of the entity. */
  function ToResponse(model: NotificationModel): (r: NotificationDtoResponse)
    ensures r.id == model.id && r.message == model.message && r.myData == model.myData
    ensures r.userId == model.userId && r.createdAt == model.createdAt && r.price == model.price
  {
    NotificationDtoResponse(model.id, model.message, model.myData, model.userId, model.createdAt, model.price)
  }

  /** `toModel` loses nothing of the request: different requests give different entities. */
  lemma ToModelInjective(a: NotificationDtoRequest, b: NotificationDtoRequest)
    requires ToModel(a) == ToModel(b)
    ensures a == b
  {
  }

  /** Two entities that differ only in their channels give the same response. */
  lemma ToResponseIgnoresChannels(model: NotificationModel, channels: Option<seq<NotificationChannel>>)
    ensures ToResponse(model.(notificationChannels := channels)) == ToResponse(model)
  {
  }

  /** Mapping a request to an entity and straight back to a response echoes the
      request's fields, with no id and no creation time yet. */
  lemma ResponseOfRequestEchoesFields(request: NotificationDtoRequest)
    ensures var r := ToResponse(ToModel(request));
      r == NotificationDtoResponse(None, request.message, request.myData, request.userId, None, request.price)
  {
  }
}

/** Conversion of method requests to entities whose references are id-only shells. */
module NotificationMethodDtoMapper {
  import opened Wrappers
  import opened Model
  import opened Request

  /** `toModel`: the entity copies the four scalar fields, has no id of its own, and
      both references are shells whose only field is the id given in the request. */
  function ToModel(request: NotificationMethodDtoRequest): (m: NotificationMethod)
    ensures m.messageTitle == request.messageTitle && m.cost == request.cost
    ensures m.userId == request.userId && m.price == request.price && m.id.None?
    ensures m.notificationChannelModel.Some? && IsChannelShell(m.notificationChannelModel.value)
    ensures m.notificationChannelModel.value.id == request.notificationChannelId
    ensures m.notificationModel.Some? && IsNotificationShell(m.notificationModel.value)
    ensures m.notificationModel.value.id == request.notificationId
  {
    NotificationMethod(None, request.messageTitle, request.cost, request.userId, request.price,
                       Some(ChannelShell(request.notificationChannelId)),
                       Some(NotificationShell(request.notificationId)))
  }

  /** Everything in the request survives in the entity. */
  lemma ToModelInjective(a: NotificationMethodDtoRequest, b: NotificationMethodDtoRequest)
    requires ToModel(a) == ToModel(b)
    ensures a == b
  {
  }
}
