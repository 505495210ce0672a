/**
 * The view of parsed HTML that the selector helpers work on: an element
 * with its tag name, attributes and text pieces, and a selector as the
 * helpers receive it (a mapping with a `css` key, one with an `xpath` key,
 * or anything else). The HTML parser and the CSS selector engine are
 * parameters of the operations that use them.
 */
module Html {
  import opened Wrappers
  import opened Strings

  /** An element: tag name, attributes, and the text pieces it contains. */
  datatype Element = Element(name: string, attrs: map<string, string>, texts: seq<string>)

  /** `el.get(key)`. */
  function Attr(e: Element, key: string): Option<string> {
    if key in e.attrs then Some(e.attrs[key]) else None
  }

  /** `get_text(strip=True)`: every text piece stripped, then concatenated. */
  function StrippedText(texts: seq<string>): string {
    if texts == [] then [] else StrippedText(texts[..|texts| - 1]) + Strip(texts[|texts| - 1])
  }

  /** A selector as the helpers receive it. */
  datatype SelectorDict = CssKey(css: string) | XPathKey(xpath: string) | NoKey

  /** `e.get("href")` for an anchor, the stripped text for any other element. */
  function HrefOrText(e: Element): Option<string> {
    if e.name == "a" then Attr(e, "href") else Some(StrippedText(e.texts))
  }
}
