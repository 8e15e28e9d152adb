/**
 * The page header's notification tray: a list of notifications, a badge
 * with their count, and removing one by id.
 */
module Header {
  import opened Wrappers
  import opened Lists

  datatype Notification = Notification(id: int, text: string, time: string)

  const InitialNotifications: seq<Notification> := [
    Notification(1, "Novo orçamento criado", "Agora"),
    Notification(2, "Cliente aguardando resposta", "5m atrás")
  ]

  /** `notifications.filter(n => n.id !== id)`. */
  function Cleared(notifications: seq<Notification>, id: int): (r: seq<Notification>)
    ensures forall n :: n in r <==> n in notifications && n.id != id
  {
    Filter(notifications, (n: Notification) => n.id != id)
  }

  /** Clearing keeps the others in order and each of them as often as before. */
  lemma ClearedKeepsOthers(notifications: seq<Notification>, id: int, n: Notification)
    ensures IsSubsequence(Cleared(notifications, id), notifications)
    ensures multiset(Cleared(notifications, id))[n] == if n.id == id then 0 else multiset(notifications)[n]
  {
    FilterIsSubsequence(notifications, (x: Notification) => x.id != id);
    FilterMultiplicity(notifications, (x: Notification) => x.id != id, n);
  }

  /** Clearing an id no notification has changes nothing. */
  lemma ClearedAbsent(notifications: seq<Notification>, id: int)
    requires forall i :: 0 <= i < |notifications| ==> notifications[i].id != id
    ensures Cleared(notifications, id) == notifications
  {
    FilterAllPass(notifications, (x: Notification) => x.id != id);
  }

  /** Clearing the same id twice is clearing it once. */
  lemma ClearedIdempotent(notifications: seq<Notification>, id: int)
    ensures Cleared(Cleared(notifications, id), id) == Cleared(notifications, id)
  {
    FilterIdempotent(notifications, (x: Notification) => x.id != id);
  }

  /** The bell's badge: the number of notifications, shown only when there is at least one. */
  function BadgeCount(notifications: seq<Notification>): (r: Option<nat>)
    ensures r.Some? <==> |notifications| > 0
    ensures r.Some? ==> r.value == |notifications|
  {
    if |notifications| > 0 then Some(|notifications|) else None
  }

  class NotificationTray {
    var notifications: seq<Notification>

    constructor()
      ensures notifications == InitialNotifications
    {
      notifications := InitialNotifications;
    }

    method ClearNotification(id: int)
      modifies this
      ensures notifications == Cleared(old(notifications), id)
    {
      notifications := Cleared(notifications, id);
    }
  }
}
