/** The user record the client passes around, and the browser it runs in:
    the `localStorage` slot named 'user', the current location, and the
    ordered log of the steps the login and logout handlers take. */
module Session {

  datatype Option<+T> = None | Some(value: T)

  /** A user as the client holds it. The demo credential list carries the
      password; the record written to the storage slot does not, so a user
      restored from storage has `password == None`. `role` stays the plain
      string the pages compare against ('admin', 'manager', 'analyst'). */
  datatype User = User(username: string, password: Option<string>, role: string, name: string)

  /** One externally visible step of a handler, in the order it was taken. */
  datatype Step =
    | SessionStored(record: User)
    | SessionRemoved
    | LoginCallback(user: User)
    | LogoutCallback
    | Navigated(path: string)

  /** The browser: the storage slot, the location and the step log. */
  class Browser {
    var slot: Option<User>
    var location: string
    var steps: seq<Step>

    constructor (stored: Option<User>, path: string)
      ensures slot == stored && location == path && steps == []
    {
      slot := stored;
      location := path;
      steps := [];
    }

    /** `localStorage.setItem('user', ...)`. */
    method Store(record: User)
      modifies this
      ensures slot == Some(record) && location == old(location)
      ensures steps == old(steps) + [SessionStored(record)]
    {
      slot := Some(record);
      steps := steps + [SessionStored(record)];
    }

    /** `localStorage.removeItem('user')`. */
    method Remove()
      modifies this
      ensures slot == None && location == old(location)
      ensures steps == old(steps) + [SessionRemoved]
    {
      slot := None;
      steps := steps + [SessionRemoved];
    }

    /** `navigate(path)`. */
    method Navigate(path: string)
      modifies this
      ensures location == path && slot == old(slot)
      ensures steps == old(steps) + [Navigated(path)]
    {
      location := path;
      steps := steps + [Navigated(path)];
    }

    /** Notes that a handler invoked the shell's callback. */
    method Note(step: Step)
      modifies this
      ensures slot == old(slot) && location == old(location)
      ensures steps == old(steps) + [step]
    {
      steps := steps + [step];
    }
  }
}
