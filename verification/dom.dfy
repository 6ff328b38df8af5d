/**
 * The part of the DOM the audio layout touches: elements as values, with a
 * class name, a map of attributes and whether they are placed in the document.
 */
module Dom {

  datatype Option<+T> = None | Some(value: T)

  datatype Element = Element(className: string, attrs: map<string, string>, attached: bool)

  /** The native `setAttribute`: the attribute takes the value, no other attribute changes. */
  function WithAttribute(e: Element, name: string, value: string): (r: Element)
    ensures name in r.attrs && r.attrs[name] == value
    ensures r.attrs.Keys == e.attrs.Keys + {name}
    ensures forall n :: n in e.attrs && n != name ==> r.attrs[n] == e.attrs[n]
    ensures r.className == e.className && r.attached == e.attached
  {
    e.(attrs := e.attrs[name := value])
  }

  /** The native `removeAttribute`: the attribute is gone (whether or not it was there), no other changes. */
  function WithoutAttribute(e: Element, name: string): (r: Element)
    ensures r.attrs.Keys == e.attrs.Keys - {name}
    ensures forall n :: n in r.attrs ==> r.attrs[n] == e.attrs[n]
    ensures r.className == e.className && r.attached == e.attached
  {
    e.(attrs := e.attrs - {name})
  }

  /**
   * maverick's `setAttribute` helper as the element calls it: `false` (here
   * `None`) removes the attribute, a string sets it.
   */
  function SetAttribute(e: Element, name: string, value: Option<string>): (r: Element)
    ensures value.Some? ==> name in r.attrs && r.attrs[name] == value.value
    ensures value.None? ==> name !in r.attrs
    ensures r.attrs.Keys - {name} == e.attrs.Keys - {name}
    ensures forall n :: n in e.attrs && n != name ==> n in r.attrs && r.attrs[n] == e.attrs[n]
    ensures r.className == e.className && r.attached == e.attached
  {
    match value
    case Some(v) => WithAttribute(e, name, v)
    case None => WithoutAttribute(e, name)
  }

  /** The native `remove`: the element leaves the document and keeps its attributes. */
  function Detach(e: Element): (r: Element)
    ensures !r.attached
    ensures r.className == e.className && r.attrs == e.attrs
  {
    e.(attached := false)
  }
}
