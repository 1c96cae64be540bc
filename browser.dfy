/**
 * The parts of the browser environment the diagnostic tool reads and writes:
 * `localStorage`, the document (a flat list of elements in document order), the
 * global `window.Chart`, and a plain module object that stubs are written onto.
 */
module Browser {
  import opened Wrappers

  /**
   * `window.localStorage`. Whether a write fits in the quota is an oracle over the
   * store's would-be contents; a write that does not fit throws `QuotaExceededError`
   * and leaves the store as it was.
   */
  class LocalStorage {
    var items: map<string, string>
    const fits: map<string, string> -> bool

    constructor (items0: map<string, string>, fits: map<string, string> -> bool)
      ensures items == items0 && this.fits == fits
    {
      items := items0;
      this.fits := fits;
    }

    /** `getItem(key)`, with None for `null`. */
    function Stored(key: string): (v: Option<string>)
      reads this
      ensures v.Some? <==> key in items
      ensures v.Some? ==> v.value == items[key]
    {
      if key in items then Some(items[key]) else None
    }

    method GetItem(key: string) returns (v: Option<string>)
      ensures v == Stored(key)
    {
      v := if key in items then Some(items[key]) else None;
    }

    /** `setItem(key, value)`; `ok` is false when it threw `QuotaExceededError`. */
    method SetItem(key: string, value: string) returns (ok: bool)
      modifies this
      ensures ok == fits(old(items)[key := value])
      ensures items == if ok then old(items)[key := value] else old(items)
    {
      ok := fits(items[key := value]);
      if ok {
        items := items[key := value];
      }
    }

    method RemoveItem(key: string)
      modifies this
      ensures items == old(items) - {key}
    {
      items := items - {key};
    }
  }

  /**
   * An element as the probes see it: its id, tag name, class name, the computed
   * `display`, `visibility` and `opacity`, and whether it carries
   * `data-debug-fallback="true"`.
   */
  datatype Element = Element(
    id: string, tag: string, className: string,
    display: string, visibility: string, opacity: string,
    fallbackMark: bool)

  /** Index of the first element, in document order, whose id is `id`. */
  function FirstWithId(els: seq<Element>, id: string): (r: Option<nat>)
    ensures r.Some? ==> r.value < |els| && els[r.value].id == id
    ensures r.Some? ==> forall k :: 0 <= k < r.value ==> els[k].id != id
    ensures r.None? ==> forall k :: 0 <= k < |els| ==> els[k].id != id
  {
    if |els| == 0 then None
    else if els[0].id == id then Some(0)
    else
      match FirstWithId(els[1..], id)
      case None => None
      case Some(k) => Some(k + 1)
  }

  /**
   * `getElementById(id)` on a document holding `els`: the first element with that id;
   * never one for the empty id.
   */
  function ElementById(els: seq<Element>, id: string): (e: Option<Element>)
    ensures e.Some? ==> id != "" && e.value in els && e.value.id == id
    ensures e.None? ==> id == "" || forall k :: 0 <= k < |els| ==> els[k].id != id
  {
    if id == "" then None
    else
      match FirstWithId(els, id)
      case None => None
      case Some(k) => Some(els[k])
  }

  /** Whether `getElementById(id)` finds an element. */
  predicate HasElement(els: seq<Element>, id: string) {
    ElementById(els, id).Some?
  }

  class Document {
    var elements: seq<Element>
    /** Whether `document.body` exists; appending to a missing body throws. */
    const hasBody: bool

    constructor (elements0: seq<Element>, hasBody: bool)
      ensures elements == elements0 && this.hasBody == hasBody
    {
      elements := elements0;
      this.hasBody := hasBody;
    }

    /** `getElementById(id)`. */
    method GetElementById(id: string) returns (e: Option<Element>)
      ensures e == ElementById(elements, id)
    {
      e := ElementById(elements, id);
    }

    /** `element.remove()` for the element at position j. */
    method Remove(j: nat)
      requires j < |elements|
      modifies this
      ensures elements == old(elements)[..j] + old(elements)[j + 1..]
    {
      elements := elements[..j] + elements[j + 1..];
    }

    /** `document.body.appendChild(e)`; `ok` is false when there is no body. */
    method AppendChild(e: Element) returns (ok: bool)
      modifies this
      ensures ok == hasBody
      ensures elements == if ok then old(elements) + [e] else old(elements)
    {
      ok := hasBody;
      if ok {
        elements := elements + [e];
      }
    }
  }

  /** `window.getComputedStyle(e)` read the way the probes read it. */
  predicate IsVisible(e: Element) {
    e.display != "none" && e.visibility != "hidden" && e.opacity != "0"
  }

  /** What `window.Chart` holds when it is defined: its `version` property, if any. */
  datatype ChartGlobal = ChartGlobal(version: Option<string>, isStub: bool)

  class Window {
    var chart: Option<ChartGlobal>

    constructor (chart0: Option<ChartGlobal>)
      ensures chart == chart0
    {
      chart := chart0;
    }
  }

  /** A property value: an ordinary value, or a stub function created for `name`. */
  datatype Member = Value | StubFn(name: string)

  /**
   * An object that properties are assigned onto. An ES module namespace is not
   * writable: assigning to it throws a TypeError in module (strict) code.
   */
  class ModuleObject {
    var props: map<string, Member>
    const writable: bool

    constructor (props0: map<string, Member>, writable: bool)
      ensures props == props0 && this.writable == writable
    {
      props := props0;
      this.writable := writable;
    }

    /** `obj[name] = m`; `ok` is false when the assignment threw. */
    method Assign(name: string, m: Member) returns (ok: bool)
      modifies this
      ensures ok == writable
      ensures props == if ok then old(props)[name := m] else old(props)
    {
      ok := writable;
      if ok {
        props := props[name := m];
      }
    }
  }
}
