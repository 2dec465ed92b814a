/** The three services: CRUD over each table, and, for methods, resolution of the
    channel and notification references before every write. */
module Service {
  import opened Wrappers
  import opened Text
  import opened Model
  import opened Store

  /** CRUD over notifications. */
  class NotificationService {
    const repo: Repository<NotificationModel>

    /** The repository is the notification table and reads and writes the `id` field. */
    ghost predicate Valid()
      reads this, repo
    {
      && repo.Valid() && repo.table == Notifications
      && (forall n :: repo.idOf(n) == n.id)
      && (forall n, k :: repo.withId(n, k) == n.(id := Some(k)))
    }

    constructor (repo: Repository<NotificationModel>)
      requires repo.Valid() && repo.table == Notifications
      requires forall n :: repo.idOf(n) == n.id
      requires forall n, k :: repo.withId(n, k) == n.(id := Some(k))
      ensures Valid() && this.repo == repo
    {
      this.repo := repo;
    }

    /** `create`: one save of `n`; the result is the row the store now holds. */
    method Create(n: NotificationModel) returns (created: NotificationModel)
      requires Valid()
      modifies repo, repo.journal
      ensures Valid()
      ensures created == if n.id.Some? then n else n.(id := Some(old(repo.nextId)))
      ensures created.id.Some? && repo.rows == old(repo.rows)[created.id.value := created]
      ensures n.id.None? ==> created.id.value !in old(repo.rows)
      ensures repo.journal.events == old(repo.journal.events) + [SaveCall(Notifications, created.id.value)]
    {
      created := repo.Save(n);
    }

    /** `getById`: the stored row, or NotFound with the fixed message; one lookup, no write. */
    method GetById(id: int) returns (r: Outcome<NotificationModel>)
      requires Valid()
      modifies repo.journal
      ensures unchanged(repo)
      ensures r == if id in repo.rows then Ok(repo.rows[id])
                   else NotFound(NotFoundMessage("Notification", id))
      ensures repo.journal.events == old(repo.journal.events) + [FindByIdCall(Notifications, id)]
    {
      var found := repo.FindById(id);
      r := if found.Some? then Ok(found.value) else NotFound(NotFoundMessage("Notification", id));
    }

    /** `getAll`: the table as the store holds it. */
    method GetAll() returns (page: map<int, NotificationModel>)
      requires Valid()
      modifies repo.journal
      ensures unchanged(repo)
      ensures page == repo.rows
      ensures repo.journal.events == old(repo.journal.events) + [FindAllCall(Notifications)]
    {
      page := repo.FindAll();
    }

    /** `updateById`: an existence check, then `n` with its id overwritten by `id`
        replaces the whole row. `arg` is the caller's object afterwards. */
    method UpdateById(id: int, n: NotificationModel) returns (r: Outcome<NotificationModel>, ghost arg: NotificationModel)
      requires Valid()
      modifies repo, repo.journal
      ensures Valid()
      ensures id !in old(repo.rows) ==>
        && r == NotFound(NotFoundMessage("Notification", id))
        && arg == n && unchanged(repo)
        && repo.journal.events == old(repo.journal.events) + [FindByIdCall(Notifications, id)]
      ensures id in old(repo.rows) ==>
        && r == Ok(n.(id := Some(id)))
        && arg == n.(id := Some(id))
        && repo.rows == old(repo.rows)[id := n.(id := Some(id))]
        && repo.journal.events == old(repo.journal.events)
             + [FindByIdCall(Notifications, id), SaveCall(Notifications, id)]
    {
      arg := n;
      var existing := GetById(id);
      if existing.NotFound? {
        r := NotFound(existing.message);
        return;
      }
      var incoming := n.(id := Some(id));
      arg := incoming;
      var saved := repo.Save(incoming);
      r := Ok(saved);
    }

    /** `deleteById`: no existence check; always answers true. */
    method DeleteById(id: int) returns (deleted: bool)
      requires Valid()
      modifies repo, repo.journal
      ensures Valid()
      ensures deleted
      ensures repo.rows == old(repo.rows) - {id}
      ensures repo.journal.events == old(repo.journal.events) + [DeleteByIdCall(Notifications, id)]
    {
      repo.DeleteById(id);
      deleted := true;
    }
  }

  /** CRUD over channels. The channel's notification reference is stored as given:
      it is never looked up. */
  class NotificationChannelService {
    const repo: Repository<NotificationChannel>

    ghost predicate Valid()
      reads this, repo
    {
      && repo.Valid() && repo.table == Channels
      && (forall c :: repo.idOf(c) == c.id)
      && (forall c, k :: repo.withId(c, k) == c.(id := Some(k)))
    }

    constructor (repo: Repository<NotificationChannel>)
      requires repo.Valid() && repo.table == Channels
      requires forall c :: repo.idOf(c) == c.id
      requires forall c, k :: repo.withId(c, k) == c.(id := Some(k))
      ensures Valid() && this.repo == repo
    {
      this.repo := repo;
    }

    /** `create`: one save of `c`, and no lookup of its notification. */
    method Create(c: NotificationChannel) returns (created: NotificationChannel)
      requires Valid()
      modifies repo, repo.journal
      ensures Valid()
      ensures created == if c.id.Some? then c else c.(id := Some(old(repo.nextId)))
      ensures created.id.Some? && repo.rows == old(repo.rows)[created.id.value := created]
      ensures c.id.None? ==> created.id.value !in old(repo.rows)
      ensures repo.journal.events == old(repo.journal.events) + [SaveCall(Channels, created.id.value)]
    {
      created := repo.Save(c);
    }

    method GetById(id: int) returns (r: Outcome<NotificationChannel>)
      requires Valid()
      modifies repo.journal
      ensures unchanged(repo)
      ensures r == if id in repo.rows then Ok(repo.rows[id])
                   else NotFound(NotFoundMessage("NotificationChannel", id))
      ensures repo.journal.events == old(repo.journal.events) + [FindByIdCall(Channels, id)]
    {
      var found := repo.FindById(id);
      r := if found.Some? then Ok(found.value) else NotFound(NotFoundMessage("NotificationChannel", id));
    }

    method GetAll() returns (page: map<int, NotificationChannel>)
      requires Valid()
      modifies repo.journal
      ensures unchanged(repo)
      ensures page == repo.rows
      ensures repo.journal.events == old(repo.journal.events) + [FindAllCall(Channels)]
    {
      page := repo.FindAll();
    }

    /** `updateById`: full replace, the notification reference included. */
    method UpdateById(id: int, c: NotificationChannel) returns (r: Outcome<NotificationChannel>, ghost arg: NotificationChannel)
      requires Valid()
      modifies repo, repo.journal
      ensures Valid()
      ensures id !in old(repo.rows) ==>
        && r == NotFound(NotFoundMessage("NotificationChannel", id))
        && arg == c && unchanged(repo)
        && repo.journal.events == old(repo.journal.events) + [FindByIdCall(Channels, id)]
      ensures id in old(repo.rows) ==>
        && r == Ok(c.(id := Some(id)))
        && arg == c.(id := Some(id))
        && repo.rows == old(repo.rows)[id := c.(id := Some(id))]
        && repo.journal.events == old(repo.journal.events)
             + [FindByIdCall(Channels, id), SaveCall(Channels, id)]
    {
      arg := c;
      var existing := GetById(id);
      if existing.NotFound? {
        r := NotFound(existing.message);
        return;
      }
      var incoming := c.(id := Some(id));
      arg := incoming;
      var saved := repo.Save(incoming);
      r := Ok(saved);
    }

    method DeleteById(id: int) returns (deleted: bool)
      requires Valid()
      modifies repo, repo.journal
      ensures Valid()
      ensures deleted
      ensures repo.rows == old(repo.rows) - {id}
      ensures repo.journal.events == old(repo.journal.events) + [DeleteByIdCall(Channels, id)]
    {
      repo.DeleteById(id);
      deleted := true;
    }
  }

  /** The method's channel reference carries an id to look up. */
  predicate HasChannelId(m: NotificationMethod)
  {
    m.notificationChannelModel.Some? && m.notificationChannelModel.value.id.Some?
  }

  /** The method's notification reference carries an id to look up. */
  predicate HasNotificationId(m: NotificationMethod)
  {
    m.notificationModel.Some? && m.notificationModel.value.id.Some?
  }

  /** Both references of a method carry an id to look up. */
  predicate HasReferenceIds(m: NotificationMethod)
  {
    HasChannelId(m) && HasNotificationId(m)
  }

  /** The id the channel lookup uses. */
  function ChannelKey(m: NotificationMethod): (k: int)
    requires HasChannelId(m)
  {
    m.notificationChannelModel.value.id.value
  }

  /** The id the notification lookup uses. */
  function NotificationKey(m: NotificationMethod): (k: int)
    requires HasNotificationId(m)
  {
    m.notificationModel.value.id.value
  }

  /** The method with both references replaced by the looked-up records and every
      other field kept. */
  function Resolve(m: NotificationMethod, c: NotificationChannel, n: NotificationModel): (r: NotificationMethod)
    ensures r.notificationChannelModel == Some(c) && r.notificationModel == Some(n)
    ensures r.id == m.id && r.messageTitle == m.messageTitle && r.cost == m.cost
    ensures r.userId == m.userId && r.price == m.price
  {
    m.(notificationChannelModel := Some(c), notificationModel := Some(n))
  }

  /** CRUD over methods, through the other two services for the references. */
  class NotificationMethodService {
    const repo: Repository<NotificationMethod>
    const channels: NotificationChannelService
    const notifications: NotificationService

    /** All three tables log to the same journal. */
    ghost predicate Valid()
      reads this, repo, channels, channels.repo, notifications, notifications.repo
    {
      && repo.Valid() && repo.table == Methods
      && (forall m :: repo.idOf(m) == m.id)
      && (forall m, k :: repo.withId(m, k) == m.(id := Some(k)))
      && channels.Valid() && notifications.Valid()
      && channels.repo.journal == repo.journal
      && notifications.repo.journal == repo.journal
    }

    constructor (notifications: NotificationService, channels: NotificationChannelService,
                 repo: Repository<NotificationMethod>)
      requires notifications.Valid() && channels.Valid()
      requires repo.Valid() && repo.table == Methods
      requires forall m :: repo.idOf(m) == m.id
      requires forall m, k :: repo.withId(m, k) == m.(id := Some(k))
      requires channels.repo.journal == repo.journal && notifications.repo.journal == repo.journal
      ensures Valid()
      ensures this.repo == repo && this.channels == channels && this.notifications == notifications
    {
      this.repo := repo;
      this.channels := channels;
      this.notifications := notifications;
    }

    /** The two lookups `create` and `updateById` make before they save: the channel
        first, then the notification, each set on the caller's object as soon as it
        is found. A failed channel lookup skips the notification lookup. */
    method ResolveReferences(m: NotificationMethod) returns (r: Outcome<NotificationMethod>, ghost arg: NotificationMethod)
      requires Valid()
      requires HasChannelId(m)
      requires ChannelKey(m) in channels.repo.rows ==> HasNotificationId(m)
      modifies repo.journal
      ensures unchanged(repo) && unchanged(channels.repo) && unchanged(notifications.repo)
      ensures ChannelKey(m) !in channels.repo.rows ==>
        && r == NotFound(NotFoundMessage("NotificationChannel", ChannelKey(m)))
        && arg == m
        && repo.journal.events == old(repo.journal.events) + [FindByIdCall(Channels, ChannelKey(m))]
      ensures ChannelKey(m) in channels.repo.rows && NotificationKey(m) !in notifications.repo.rows ==>
        && r == NotFound(NotFoundMessage("Notification", NotificationKey(m)))
        && arg == m.(notificationChannelModel := Some(channels.repo.rows[ChannelKey(m)]))
        && repo.journal.events == old(repo.journal.events)
             + [FindByIdCall(Channels, ChannelKey(m)), FindByIdCall(Notifications, NotificationKey(m))]
      ensures ChannelKey(m) in channels.repo.rows && NotificationKey(m) in notifications.repo.rows ==>
        && r == Ok(Resolve(m, channels.repo.rows[ChannelKey(m)], notifications.repo.rows[NotificationKey(m)]))
        && arg == r.value
        && repo.journal.events == old(repo.journal.events)
             + [FindByIdCall(Channels, ChannelKey(m)), FindByIdCall(Notifications, NotificationKey(m))]
    {
      arg := m;
      var incoming := m;
      var channel := channels.GetById(ChannelKey(m));
      if channel.NotFound? {
        r := NotFound(channel.message);
        return;
      }
      incoming := incoming.(notificationChannelModel := Some(channel.value));
      arg := incoming;
      var notification := notifications.GetById(NotificationKey(m));
      if notification.NotFound? {
        r := NotFound(notification.message);
        return;
      }
      incoming := incoming.(notificationModel := Some(notification.value));
      arg := incoming;
      r := Ok(incoming);
    }

    /** `create`: look up the channel, then the notification, then save once. A
        failed lookup is returned unchanged and nothing is written. */
    method Create(m: NotificationMethod) returns (r: Outcome<NotificationMethod>, ghost arg: NotificationMethod)
      requires Valid()
      requires HasChannelId(m)
      requires ChannelKey(m) in channels.repo.rows ==> HasNotificationId(m)
      modifies repo, repo.journal
      ensures Valid()
      ensures unchanged(channels.repo) && unchanged(notifications.repo)
      ensures ChannelKey(m) !in channels.repo.rows ==>
        && r == NotFound(NotFoundMessage("NotificationChannel", ChannelKey(m)))
        && arg == m && unchanged(repo)
        && repo.journal.events == old(repo.journal.events) + [FindByIdCall(Channels, ChannelKey(m))]
      ensures ChannelKey(m) in channels.repo.rows && NotificationKey(m) !in notifications.repo.rows ==>
        && r == NotFound(NotFoundMessage("Notification", NotificationKey(m)))
        && arg == m.(notificationChannelModel := Some(channels.repo.rows[ChannelKey(m)]))
        && unchanged(repo)
        && repo.journal.events == old(repo.journal.events)
             + [FindByIdCall(Channels, ChannelKey(m)), FindByIdCall(Notifications, NotificationKey(m))]
      ensures ChannelKey(m) in channels.repo.rows && NotificationKey(m) in notifications.repo.rows ==>
        var resolved := Resolve(m, channels.repo.rows[ChannelKey(m)], notifications.repo.rows[NotificationKey(m)]);
        && r == Ok(if m.id.Some? then resolved else resolved.(id := Some(old(repo.nextId))))
        && arg == r.value && r.value.id.Some?
        && repo.rows == old(repo.rows)[r.value.id.value := r.value]
        && repo.journal.events == old(repo.journal.events)
             + [FindByIdCall(Channels, ChannelKey(m)), FindByIdCall(Notifications, NotificationKey(m)),
                SaveCall(Methods, r.value.id.value)]
    {
      var resolved;
      resolved, arg := ResolveReferences(m);
      if resolved.NotFound? {
        r := resolved;
        return;
      }
      var saved := repo.Save(resolved.value);
      arg := saved;
      r := Ok(saved);
    }

    method GetById(id: int) returns (r: Outcome<NotificationMethod>)
      requires Valid()
      modifies repo.journal
      ensures unchanged(repo) && unchanged(channels.repo) && unchanged(notifications.repo)
      ensures r == if id in repo.rows then Ok(repo.rows[id])
                   else NotFound(NotFoundMessage("NotificationMethod", id))
      ensures repo.journal.events == old(repo.journal.events) + [FindByIdCall(Methods, id)]
    {
      var found := repo.FindById(id);
      r := if found.Some? then Ok(found.value) else NotFound(NotFoundMessage("NotificationMethod", id));
    }

    method GetAll() returns (page: map<int, NotificationMethod>)
      requires Valid()
      modifies repo.journal
      ensures unchanged(repo) && unchanged(channels.repo) && unchanged(notifications.repo)
      ensures page == repo.rows
      ensures repo.journal.events == old(repo.journal.events) + [FindAllCall(Methods)]
    {
      page := repo.FindAll();
    }

    /** `updateById`: an existence check, then the id, then the same two lookups as
        `create`, then one full-replace save. Any failure stops before the save. */
    method UpdateById(id: int, m: NotificationMethod) returns (r: Outcome<NotificationMethod>, ghost arg: NotificationMethod)
      requires Valid()
      requires id in repo.rows ==> HasChannelId(m)
      requires id in repo.rows && ChannelKey(m) in channels.repo.rows ==> HasNotificationId(m)
      modifies repo, repo.journal
      ensures Valid()
      ensures unchanged(channels.repo) && unchanged(notifications.repo)
      ensures id !in old(repo.rows) ==>
        && r == NotFound(NotFoundMessage("NotificationMethod", id))
        && arg == m && unchanged(repo)
        && repo.journal.events == old(repo.journal.events) + [FindByIdCall(Methods, id)]
      ensures id in old(repo.rows) && ChannelKey(m) !in channels.repo.rows ==>
        && r == NotFound(NotFoundMessage("NotificationChannel", ChannelKey(m)))
        && arg == m.(id := Some(id)) && unchanged(repo)
        && repo.journal.events == old(repo.journal.events) + [FindByIdCall(Methods, id)]
             + [FindByIdCall(Channels, ChannelKey(m))]
      ensures id in old(repo.rows) && ChannelKey(m) in channels.repo.rows
              && NotificationKey(m) !in notifications.repo.rows ==>
        && r == NotFound(NotFoundMessage("Notification", NotificationKey(m)))
        && arg == m.(id := Some(id), notificationChannelModel := Some(channels.repo.rows[ChannelKey(m)]))
        && unchanged(repo)
        && repo.journal.events == old(repo.journal.events) + [FindByIdCall(Methods, id)]
             + [FindByIdCall(Channels, ChannelKey(m)), FindByIdCall(Notifications, NotificationKey(m))]
      ensures id in old(repo.rows) && ChannelKey(m) in channels.repo.rows
              && NotificationKey(m) in notifications.repo.rows ==>
        var resolved := Resolve(m.(id := Some(id)), channels.repo.rows[ChannelKey(m)],
                                notifications.repo.rows[NotificationKey(m)]);
        && r == Ok(resolved) && arg == resolved
        && repo.rows == old(repo.rows)[id := resolved]
        && repo.journal.events == old(repo.journal.events) + [FindByIdCall(Methods, id)]
             + [FindByIdCall(Channels, ChannelKey(m)), FindByIdCall(Notifications, NotificationKey(m)),
                SaveCall(Methods, id)]
    {
      arg := m;
      var existing := GetById(id);
      if existing.NotFound? {
        r := NotFound(existing.message);
        return;
      }
      var resolved;
      resolved, arg := ResolveReferences(m.(id := Some(id)));
      if resolved.NotFound? {
        r := resolved;
        return;
      }
      var saved := repo.Save(resolved.value);
      arg := saved;
      r := Ok(saved);
    }

    method DeleteById(id: int) returns (deleted: bool)
      requires Valid()
      modifies repo, repo.journal
      ensures Valid()
      ensures unchanged(channels.repo) && unchanged(notifications.repo)
      ensures deleted
      ensures repo.rows == old(repo.rows) - {id}
      ensures repo.journal.events == old(repo.journal.events) + [DeleteByIdCall(Methods, id)]
    {
      repo.DeleteById(id);
      deleted := true;
    }
  }
}
