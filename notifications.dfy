/** The notifications page (pages/Notifications.tsx): a list held in page
    state, starting from three fixed entries, that the user marks as read,
    deletes one by one or clears. */
module Notifications {
  import opened Common

  datatype Kind = SuccessKind | ErrorKind | InfoKind

  datatype Notification = Notification(id: string, kind: Kind, title: string, message: string, timestamp: string, isRead: bool)

  const Deleted: string := "Notificação removida"
  const AllDeleted: string := "Todas as notificações foram removidas"

  /** The entries the page starts with: two unread, one read. */
  const InitialNotifications: seq<Notification> := [
    Notification("1", SuccessKind, "Cálculo concluído para \"inventario_2024.csv\"",
      "O arquivo foi processado com sucesso. Resultado: 145.2 tCO2e", "15/03/2024, 09:15", false),
    Notification("2", ErrorKind, "Falha no processamento de \"inventario_2023.csv\"",
      "Erro na validação dos dados. Verifique o formato do arquivo.", "20/12/2023, 14:30", false),
    Notification("3", InfoKind, "Upload realizado com sucesso",
      "O arquivo \"dados_energia.xlsx\" foi enviado e está sendo processado.", "10/03/2024, 11:20", true)
  ]

  predicate IsUnread(n: Notification) {
    !n.isRead
  }

  /** `notifications.filter(n => !n.isRead).length`. */
  function UnreadCount(ns: seq<Notification>): (count: nat)
    ensures count <= |ns|
    ensures count == CountWhere(IsUnread, ns)
  {
    FilterLength(IsUnread, ns);
    |Filter(IsUnread, ns)|
  }

  /** `markAsRead`: the entries with the id become read; every other field
      and every other entry is kept, in place. */
  function MarkRead(ns: seq<Notification>, id: string): (r: seq<Notification>)
    ensures |r| == |ns|
    ensures forall i :: 0 <= i < |ns| ==> r[i] == (if ns[i].id == id then ns[i].(isRead := true) else ns[i])
  {
    if ns == [] then [] else [if ns[0].id == id then ns[0].(isRead := true) else ns[0]] + MarkRead(ns[1..], id)
  }

  predicate OtherId(id: string, n: Notification) {
    n.id != id
  }

  /** `deleteNotification`: the entries with the id are dropped. */
  function Delete(ns: seq<Notification>, id: string): (r: seq<Notification>)
    ensures forall i :: 0 <= i < |r| ==> r[i].id != id && r[i] in ns
    ensures forall i :: 0 <= i < |ns| && ns[i].id != id ==> ns[i] in r
  {
    Filter(n => OtherId(id, n), ns)
  }

  /** Marking the same id twice is marking it once. */
  lemma MarkReadIdempotent(ns: seq<Notification>, id: string)
    ensures MarkRead(MarkRead(ns, id), id) == MarkRead(ns, id)
  {
    var once := MarkRead(ns, id);
    assert forall i :: 0 <= i < |ns| ==> MarkRead(once, id)[i] == once[i];
  }

  /** Marking as read lowers the unread count by exactly the unread entries
      with the id, so it never raises it. */
  lemma {:induction false} MarkReadUnreadCount(ns: seq<Notification>, id: string)
    ensures UnreadCount(MarkRead(ns, id)) + CountWhere((n: Notification) => n.id == id && !n.isRead, ns) == UnreadCount(ns)
    ensures UnreadCount(MarkRead(ns, id)) <= UnreadCount(ns)
  {
    if ns != [] {
      MarkReadUnreadCount(ns[1..], id);
      assert MarkRead(ns, id)[1..] == MarkRead(ns[1..], id);
    }
  }

  /** Deleting drops exactly the entries with the id, keeps the others in
      their order, and never raises the unread count. */
  lemma {:induction false} DeleteFacts(ns: seq<Notification>, id: string)
    ensures IsSubsequence(Delete(ns, id), ns)
    ensures |Delete(ns, id)| == |ns| - CountWhere((n: Notification) => n.id == id, ns)
    ensures UnreadCount(Delete(ns, id)) <= UnreadCount(ns)
  {
    var p := (n: Notification) => OtherId(id, n);
    FilterIsSubsequence(p, ns);
    FilterLength(p, ns);
    CountSplit(p, (n: Notification) => n.id == id, ns);
    DeleteUnread(ns, id);
  }

  lemma {:induction false} DeleteUnread(ns: seq<Notification>, id: string)
    ensures UnreadCount(Delete(ns, id)) <= UnreadCount(ns)
  {
    if ns != [] {
      DeleteUnread(ns[1..], id);
      var p := (n: Notification) => OtherId(id, n);
      var head: seq<Notification> := if p(ns[0]) then [ns[0]] else [];
      assert Delete(ns, id) == head + Delete(ns[1..], id);
      FilterAppend(IsUnread, head, Delete(ns[1..], id));
    }
  }

  /** The page opens with two unread notifications. */
  lemma InitialUnreadCount()
    ensures UnreadCount(InitialNotifications) == 2
  {
    assert CountWhere(IsUnread, InitialNotifications[2..]) == 0;
    assert CountWhere(IsUnread, InitialNotifications[1..]) == 1;
  }

  class NotificationsPage {
    var notifications: seq<Notification>
    var toasts: seq<Toast>

    constructor()
      ensures notifications == InitialNotifications && toasts == []
    {
      notifications := InitialNotifications;
      toasts := [];
    }

    method MarkAsRead(id: string)
      modifies `notifications
      ensures notifications == MarkRead(old(notifications), id)
      ensures UnreadCount(notifications) <= UnreadCount(old(notifications))
    {
      MarkReadUnreadCount(notifications, id);
      notifications := MarkRead(notifications, id);
    }

    method DeleteNotification(id: string)
      modifies this
      ensures notifications == Delete(old(notifications), id)
      ensures UnreadCount(notifications) <= UnreadCount(old(notifications))
      ensures toasts == old(toasts) + [SuccessToast(Deleted)]
    {
      DeleteUnread(notifications, id);
      notifications := Delete(notifications, id);
      toasts := toasts + [SuccessToast(Deleted)];
    }

    method ClearAllNotifications()
      modifies this
      ensures notifications == [] && UnreadCount(notifications) == 0
      ensures toasts == old(toasts) + [SuccessToast(AllDeleted)]
    {
      notifications := [];
      toasts := toasts + [SuccessToast(AllDeleted)];
    }
  }
}
