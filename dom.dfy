/** The part of the browser document the compile-on-mount gate touches:
    elements, selector queries, and the detached wrapper node that
    getOuterHTML uses to serialise an element whose engine has no outerHTML. */
module Dom {
  import opened Wrappers

  /** An element, reduced to what the gate reads from it. */
  datatype Element = Element(
    innerHTML: string,          // serialisation of the element's children
    outerHTML: Option<string>,  // the engine's outerHTML property; None where the engine lacks it
    markup: string,             // the element's own serialisation, as it appears inside a parent
    isBody: bool,               // the element is document.body
    isRoot: bool)               // the element is document.documentElement

  /** The document, as the elements each selector matches. */
  type Document = map<string, Element>

  /** document.querySelector: the element a selector matches, if any. */
  function Query(doc: Document, selector: string): Option<Element>
  {
    if selector in doc then Some(doc[selector]) else None
  }

  /** el.cloneNode(true): a detached deep copy with the same markup. */
  function CloneNode(e: Element): (c: Element)
    ensures c.markup == e.markup && c.innerHTML == e.innerHTML
    ensures !c.isBody && !c.isRoot
  {
    e.(isBody := false, isRoot := false)
  }

  /** The innerHTML of a node whose children are `nodes`: their markup, in order. */
  function Serialize(nodes: seq<Element>): string
  {
    if nodes == [] then "" else nodes[0].markup + Serialize(nodes[1..])
  }

  /** Appending a child extends the parent's serialisation by the child's markup. */
  lemma {:induction false} SerializeAppend(nodes: seq<Element>, e: Element)
    ensures Serialize(nodes + [e]) == Serialize(nodes) + e.markup
  {
    if nodes == [] {
      assert [] + [e] == [e];
    } else {
      calc {
        Serialize(nodes + [e]);
        { assert (nodes + [e])[1..] == nodes[1..] + [e]; }
        nodes[0].markup + Serialize(nodes[1..] + [e]);
        { SerializeAppend(nodes[1..], e); }
        nodes[0].markup + Serialize(nodes[1..]) + e.markup;
      }
    }
  }

  /** A detached element created by document.createElement('div'). */
  class Container {
    var children: seq<Element>

    constructor ()
      ensures children == []
    {
      children := [];
    }

    function InnerHTML(): string
      reads this
    {
      Serialize(children)
    }

    /** container.appendChild(child) */
    method AppendChild(child: Element)
      modifies this
      ensures children == old(children) + [child]
      ensures InnerHTML() == old(InnerHTML()) + child.markup
    {
      SerializeAppend(children, child);
      children := children + [child];
    }
  }

  /** What getOuterHTML promises: the engine's outerHTML when it has a truthy
      one, otherwise the element's own markup. */
  function OuterHTML(e: Element): string
  {
    if Truthy(e.outerHTML) then e.outerHTML.value else e.markup
  }

  /** getOuterHTML: read outerHTML, or serialise a clone inside a fresh wrapper. */
  method GetOuterHTML(e: Element) returns (html: string)
    ensures html == OuterHTML(e)
  {
    if Truthy(e.outerHTML) {
      html := e.outerHTML.value;
    } else {
      var container := new Container();
      container.AppendChild(CloneNode(e));
      html := container.InnerHTML();
    }
  }
}
