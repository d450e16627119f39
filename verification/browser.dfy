/**
 * The browser facilities the composables touch: one `localStorage` key
 * (every key the application uses is its own `StorageItem`, so composables
 * that share a key share the object) and the desktop notification that
 * `useTauriNotificationSendNotification` sends.
 */
module Browser {
  import opened Js

  /** One `localStorage` key: its string value, or absent. */
  class StorageItem<T> {
    var item: Option<T>

    constructor (initial: Option<T>)
      ensures item == initial
    {
      item := initial;
    }

    /** `localStorage.setItem(key, v)` */
    method SetItem(v: T)
      modifies this
      ensures item == Some(v)
    {
      item := Some(v);
    }

    /** `localStorage.removeItem(key)` */
    method RemoveItem()
      modifies this
      ensures item == None
    {
      item := None;
    }
  }

  /** A desktop notification as sent: `{ title, body: options.body || '' }`. */
  datatype Notification = Notification(title: string, body: string)

  /** `useTauriNotificationSendNotification({ title, body })` */
  function SendNotification(title: string, body: Option<string>): (n: Notification)
    ensures n.title == title
    ensures n.body == (if body.Some? then body.value else "")
  {
    Notification(title, if body.Some? then body.value else "")
  }
}
