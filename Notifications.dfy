/**
 * A notification in the list: its icon, where it links to, and what a click
 * on it does (mark it read on the server, then tell the list).
 */
module Notifications {
  import opened Text
  import opened Service
  import opened FeedTypes

  const PostLinkPrefix := "/post/"
  const NoLink := "#"

  datatype Icon = CommentIcon | LikeIcon | ExpertIcon | MentionIcon | TagIcon | SystemIcon | DefaultIcon

  /** `getNotificationIcon`: one icon per declared kind, the default bell for anything else. */
  function NotificationIcon(kind: NotificationType): (icon: Icon)
    ensures icon == DefaultIcon <==> kind.OtherNote?
    ensures kind == CommentNote <==> icon == CommentIcon
    ensures kind == LikeNote <==> icon == LikeIcon
    ensures kind == ExpertResponseNote <==> icon == ExpertIcon
    ensures kind == MentionNote <==> icon == MentionIcon
    ensures kind == TagNote <==> icon == TagIcon
    ensures kind == SystemNote <==> icon == SystemIcon
  {
    match kind
    case CommentNote => CommentIcon
    case LikeNote => LikeIcon
    case ExpertResponseNote => ExpertIcon
    case MentionNote => MentionIcon
    case TagNote => TagIcon
    case SystemNote => SystemIcon
    case OtherNote(_) => DefaultIcon
  }

  /** Declared kinds never share an icon. */
  lemma IconsDistinct(a: NotificationType, b: NotificationType)
    requires !a.OtherNote? && a != b
    ensures NotificationIcon(a) != NotificationIcon(b)
  {
    match a
    case CommentNote =>
    case LikeNote =>
    case ExpertResponseNote =>
    case MentionNote =>
    case TagNote =>
    case SystemNote =>
  }

  /**
   * `getNotificationLink`: the related post's page when there is a related
   * post (a non-empty id), otherwise "#".  The post id can be read back from
   * the link.
   */
  function NotificationLink(n: Notification): (link: string)
    ensures link != NoLink <==> n.relatedPostId.Some? && n.relatedPostId.value != ""
    ensures link != NoLink ==>
      StartsWith(link, PostLinkPrefix) && link[|PostLinkPrefix|..] == n.relatedPostId.value
  {
    if n.relatedPostId.Some? && n.relatedPostId.value != "" then PostLinkPrefix + n.relatedPostId.value
    else NoLink
  }

  /** Two linked notifications link to the same page exactly when they concern the same post. */
  lemma LinkInjective(m: Notification, n: Notification)
    requires NotificationLink(m) != NoLink && NotificationLink(n) != NoLink
    ensures NotificationLink(m) == NotificationLink(n) <==> m.relatedPostId == n.relatedPostId
  {
    if NotificationLink(m) == NotificationLink(n) {
      assert m.relatedPostId.value == NotificationLink(m)[|PostLinkPrefix|..];
    }
  }

  /**
   * What a click did: the id sent to `markNotificationAsRead`, if a call was
   * made, and the id handed to the list's `onMarkAsRead`, if it was called.
   */
  datatype ClickEffect = ClickEffect(markCall: Option<string>, callback: Option<string>)

  /**
   * `handleClick`, with `marked` standing for how the mark-read call ended: a
   * read notification does nothing; an unread one is marked, and the list is
   * told with the same id only when marking succeeded.
   */
  function Click(n: Notification, marked: Outcome<()>): (e: ClickEffect)
    ensures e.markCall.Some? <==> !n.isRead
    ensures e.markCall.Some? ==> e.markCall.value == n.id
    ensures e.callback.Some? <==> !n.isRead && marked.Success?
    ensures e.callback.Some? ==> e.callback == e.markCall
  {
    if n.isRead then ClickEffect(None, None)
    else if marked.Success? then ClickEffect(Some(n.id), Some(n.id))
    else ClickEffect(Some(n.id), None)
  }

  /**
   * Once the list has recorded the callback by marking the notification read,
   * a further click makes no call at all; a failed mark leaves the
   * notification unread, so the next click tries again.
   */
  lemma ClickSettles(n: Notification, first: Outcome<()>, second: Outcome<()>)
    requires !n.isRead
    ensures Click(n, first).callback.Some? ==> Click(n.(isRead := true), second) == ClickEffect(None, None)
    ensures Click(n, first).callback.None? ==> Click(n, second).markCall == Some(n.id)
  {
  }
}
