/** The services wired together over three empty tables, and the request-to-store
    paths the controller drives. */
module Backend {
  import opened Wrappers
  import opened Text
  import opened Model
  import opened Request
  import opened Store
  import opened Service
  import NotificationMethodDtoMapper

  /** Three empty tables sharing one journal, and the services over them. */
  method NewBackend() returns (notifications: NotificationService, channels: NotificationChannelService,
                                methods: NotificationMethodService)
    ensures methods.Valid() && methods.notifications == notifications && methods.channels == channels
    ensures notifications.repo.rows == map[] && channels.repo.rows == map[] && methods.repo.rows == map[]
    ensures methods.repo.journal.events == []
    ensures fresh(notifications) && fresh(notifications.repo) && fresh(channels) && fresh(channels.repo)
    ensures fresh(methods) && fresh(methods.repo) && fresh(methods.repo.journal)
  {
    var journal := new Journal();
    var notificationRepo := new Repository<NotificationModel>(
      Notifications, (n: NotificationModel) => n.id, (n: NotificationModel, k: int) => n.(id := Some(k)), journal);
    var channelRepo := new Repository<NotificationChannel>(
      Channels, (c: NotificationChannel) => c.id, (c: NotificationChannel, k: int) => c.(id := Some(k)), journal);
    var methodRepo := new Repository<NotificationMethod>(
      Methods, (m: NotificationMethod) => m.id, (m: NotificationMethod, k: int) => m.(id := Some(k)), journal);
    notifications := new NotificationService(notificationRepo);
    channels := new NotificationChannelService(channelRepo);
    methods := new NotificationMethodService(notifications, channels, methodRepo);
  }

  /** A valid method request always reaches the service with both references
      carrying ids, and those ids are exactly the request's two ids. */
  lemma MappedRequestLookupKeys(request: NotificationMethodDtoRequest)
    requires request.Valid()
    ensures var m := NotificationMethodDtoMapper.ToModel(request);
      && HasReferenceIds(m)
      && ChannelKey(m) == request.notificationChannelId.value
      && NotificationKey(m) == request.notificationId.value
  {
  }

  /** Resolution keeps the foreign keys: in tables whose rows carry their own keys,
      the resolved method refers to the same two ids as the submitted one. */
  lemma ResolutionKeepsKeys(m: NotificationMethod, channels: map<int, NotificationChannel>,
                            notifications: map<int, NotificationModel>)
    requires HasReferenceIds(m)
    requires ChannelKey(m) in channels && NotificationKey(m) in notifications
    requires forall k :: k in channels ==> channels[k].id == Some(k)
    requires forall k :: k in notifications ==> notifications[k].id == Some(k)
    ensures var r := Resolve(m, channels[ChannelKey(m)], notifications[NotificationKey(m)]);
      && HasReferenceIds(r)
      && ChannelKey(r) == ChannelKey(m) && NotificationKey(r) == NotificationKey(m)
  {
  }

  /** A record just created can be read back by the id the store gave it. */
  method CreateThenGet(service: NotificationService, n: NotificationModel)
    returns (created: NotificationModel, fetched: Outcome<NotificationModel>)
    requires service.Valid()
    modifies service.repo, service.repo.journal
    ensures service.Valid()
    ensures created.id.Some? && fetched == Ok(created)
    ensures created == n.(id := created.id)
  {
    created := service.Create(n);
    fetched := service.GetById(created.id.value);
  }

  /** A notification is created, then a channel that refers to it, then a method from
      a request naming both ids: the method is saved with the two stored records in
      place of the shells the mapper built. */
  method CreateMethodFromRequest() returns (n: NotificationModel, c: NotificationChannel,
                                             saved: Outcome<NotificationMethod>)
    ensures n.id.Some? && c.id.Some?
    ensures saved.Ok? && saved.value.notificationChannelModel == Some(c)
    ensures saved.value.notificationModel == Some(n)
    ensures saved.value.messageTitle == Some("title") && saved.value.id.Some?
  {
    var notifications, channels, methods := NewBackend();
    n := notifications.Create(NotificationModel(None, Some("message"), Some(10.0), Some("userId"), None, Some(10.0), None));
    c := channels.Create(NotificationChannel(None, Some("title"), Some(10), Some("userId"), None, Some(10.0), Some(n)));
    var request := NotificationMethodDtoRequest(Some("title"), Some(10.0), Some("userId"), Some(10.0), c.id, n.id);
    var m := NotificationMethodDtoMapper.ToModel(request);
    assert ChannelKey(m) in channels.repo.rows && channels.repo.rows[ChannelKey(m)] == c;
    assert NotificationKey(m) in notifications.repo.rows && notifications.repo.rows[NotificationKey(m)] == n;
    ghost var arg;
    saved, arg := methods.Create(m);
  }

  /** A method request naming a channel that does not exist: the channel lookup is
      the only call made, and the answer is the channel's not-found message. */
  method CreateMethodWithMissingChannel(channelId: int, notificationId: int)
    returns (result: Outcome<NotificationMethod>, methodsLeft: map<int, NotificationMethod>,
             ghost events: seq<Event>)
    ensures result == NotFound(NotFoundMessage("NotificationChannel", channelId))
    ensures methodsLeft == map[]
    ensures events == [FindByIdCall(Channels, channelId)]
  {
    var notifications, channels, methods := NewBackend();
    var request := NotificationMethodDtoRequest(Some("title"), Some(10.0), Some("userId"), Some(10.0),
                                                Some(channelId), Some(notificationId));
    ghost var arg;
    result, arg := methods.Create(NotificationMethodDtoMapper.ToModel(request));
    methodsLeft := methods.repo.rows;
    events := methods.repo.journal.events;
  }

  /** Updating a method that does not exist fails on the existence check alone,
      whatever the submitted references hold, null ones included. */
  method UpdateMissingMethod(id: int, m: NotificationMethod)
    returns (result: Outcome<NotificationMethod>, ghost events: seq<Event>)
    ensures result == NotFound(NotFoundMessage("NotificationMethod", id))
    ensures events == [FindByIdCall(Methods, id)]
  {
    var notifications, channels, methods := NewBackend();
    ghost var arg;
    result, arg := methods.UpdateById(id, m);
    events := methods.repo.journal.events;
  }

  /** Deleting twice answers true both times and leaves the id absent. */
  method DeleteTwice(service: NotificationService, id: int) returns (first: bool, second: bool)
    requires service.Valid()
    modifies service.repo, service.repo.journal
    ensures service.Valid()
    ensures first && second && id !in service.repo.rows
    ensures service.repo.rows == old(service.repo.rows) - {id}
  {
    first := service.DeleteById(id);
    second := service.DeleteById(id);
  }
}
