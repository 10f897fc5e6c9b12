/**
 * The browser surface the core reads and writes, abstracted as plain state: the page's
 * `localStorage`, the `(prefers-color-scheme: dark)` media query, and the parts of the
 * document the theme code touches.
 */
module Web {
  import opened Wrappers

  /**
   * `window.localStorage`: string keys to string values. When `accessible` is false every
   * access throws, as it does in a sandboxed frame or with storage disabled.
   */
  class Storage {
    var items: map<string, string>
    var accessible: bool

    constructor (items: map<string, string>, accessible: bool)
      ensures this.items == items && this.accessible == accessible
    {
      this.items := items;
      this.accessible := accessible;
    }

    /** `getItem(key)`: the stored string, `None` standing for `null`. */
    function GetItem(key: string): Option<string>
      reads this
    {
      if key in items then Some(items[key]) else None
    }

    /** `setItem(key, value)`; `ok` is false when the call throws, and then nothing is stored. */
    method SetItem(key: string, value: string) returns (ok: bool)
      modifies this
      ensures ok == accessible && accessible == old(accessible)
      ensures items == if ok then old(items)[key := value] else old(items)
    {
      ok := accessible;
      if ok {
        items := items[key := value];
      }
    }

    /** `removeItem(key)`; `ok` is false when the call throws, and then nothing is removed. */
    method RemoveItem(key: string) returns (ok: bool)
      modifies this
      ensures ok == accessible && accessible == old(accessible)
      ensures items == if ok then old(items) - {key} else old(items)
    {
      ok := accessible;
      if ok {
        items := items - {key};
      }
    }
  }

  /**
   * `JSON.stringify` and `JSON.parse` for one stored type: `decode` is `None` where parsing
   * throws or gives a value of another type.
   */
  datatype Codec<!T> = Codec(encode: T -> string, decode: string -> Option<T>)

  /** Decoding undoes encoding, and an encoding is never the empty string, as with JSON. */
  ghost predicate RoundTrips<T(!new)>(c: Codec<T>)
  {
    forall v: T :: c.decode(c.encode(v)) == Some(v) && c.encode(v) != ""
  }

  /**
   * One browser page: its storage, the system colour-scheme preference, and the document
   * surface the theme code writes.
   */
  class Page {
    const storage: Storage
    /** Whether `matchMedia('(prefers-color-scheme: dark)')` currently matches. */
    var prefersDark: bool
    /** The class list of `document.documentElement`. */
    var rootClasses: set<string>
    /** The `data-theme` attribute of the root element; `None` when absent. */
    var dataTheme: Option<string>
    /** The root element's inline style: property name to value. */
    var rootStyle: map<string, string>
    /** The ids of the `<style>` elements in the document head, in document order. */
    var headStyleIds: seq<string>
    /** The `content` of `meta[name="theme-color"]`; `None` when the page has no such tag. */
    var metaThemeColor: Option<string>
    /** The global `window.__MUI_INSTANCE_ID__`. */
    var muiInstanceId: Option<string>

    constructor (storage: Storage, prefersDark: bool, rootClasses: set<string>,
                 headStyleIds: seq<string>, metaThemeColor: Option<string>)
      ensures this.storage == storage && this.prefersDark == prefersDark
      ensures this.rootClasses == rootClasses && dataTheme == None && rootStyle == map[]
      ensures this.headStyleIds == headStyleIds && this.metaThemeColor == metaThemeColor
      ensures muiInstanceId == None
    {
      this.storage := storage;
      this.prefersDark := prefersDark;
      this.rootClasses := rootClasses;
      dataTheme := None;
      rootStyle := map[];
      this.headStyleIds := headStyleIds;
      this.metaThemeColor := metaThemeColor;
      muiInstanceId := None;
    }
  }
}
