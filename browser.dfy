/** The browser facilities the pages use: `localStorage` as a string map,
    `window.location.href` as a string field and the client router's
    `push` calls as a recorded list of paths. */
module Browser {

  class Browser {
    var storage: map<string, string>
    var href: string
    var pushed: seq<string>

    constructor (storage0: map<string, string>, href0: string)
      ensures storage == storage0 && href == href0 && pushed == []
    {
      storage := storage0;
      href := href0;
      pushed := [];
    }

    /** `localStorage.setItem(key, value)`. */
    method SetItem(key: string, value: string)
      modifies this`storage
      ensures storage == old(storage)[key := value]
    {
      storage := storage[key := value];
    }

    /** `localStorage.removeItem(key)`; removing an absent key is a no-op. */
    method RemoveItem(key: string)
      modifies this`storage
      ensures storage == old(storage) - {key}
    {
      storage := storage - {key};
    }

    /** `router.push(path)`. */
    method Push(path: string)
      modifies this`pushed
      ensures pushed == old(pushed) + [path]
    {
      pushed := pushed + [path];
    }

    /** `window.location.href = url`. */
    method Assign(url: string)
      modifies this`href
      ensures href == url
    {
      href := url;
    }
  }
}
