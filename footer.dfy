/** The footer's navigation labels: `'home'` reads `'Início'`, every other section
    id is shown with its first character upper-cased. */
module Footer {

  /** `String.prototype.toUpperCase` on one character, for the ASCII letters. */
  function UpperAscii(c: char): (u: char)
    ensures !('a' <= u <= 'z')
    ensures 'A' <= u <= 'Z' <==> 'a' <= c <= 'z' || 'A' <= c <= 'Z'
  {
    if 'a' <= c <= 'z' then (c as int - 32) as char else c
  }

  /** `String.prototype.toLowerCase` on one character, for the ASCII letters. */
  function LowerAscii(c: char): (l: char)
    ensures !('A' <= l <= 'Z')
  {
    if 'A' <= c <= 'Z' then (c as int + 32) as char else c
  }

  /** `id.charAt(0).toUpperCase() + id.slice(1)` (the empty string stays empty). */
  function Capitalize(s: string): (r: string)
    ensures |r| == |s|
    ensures s != [] ==> r[1..] == s[1..] && !('a' <= r[0] <= 'z') && LowerAscii(r[0]) == LowerAscii(s[0])
  {
    if s == [] then [] else [UpperAscii(s[0])] + s[1..]
  }

  /** The footer label for a section id. */
  function NavLabel(id: string): (r: string)
    ensures id == "home" ==> r == "Início"
    ensures id != "home" ==> |r| == |id|
    ensures id != "home" && id != [] ==>
              r[1..] == id[1..] && !('a' <= r[0] <= 'z') && LowerAscii(r[0]) == LowerAscii(id[0])
  {
    if id == "home" then "Início" else Capitalize(id)
  }

  /** Lower-casing the label's first character gives back the id, for every id
      other than "home" that does not already start with a capital. */
  lemma NavLabelRoundTrip(id: string)
    requires id != "home"
    requires id != [] ==> !('A' <= id[0] <= 'Z')
    ensures (if NavLabel(id) == [] then [] else [LowerAscii(NavLabel(id)[0])] + NavLabel(id)[1..]) == id
  {
  }

  /** The labels of the footer's five section ids. */
  lemma FooterLabels()
    ensures NavLabel("home") == "Início"
    ensures NavLabel("services") == "Services"
    ensures NavLabel("process") == "Process"
    ensures NavLabel("testimonials") == "Testimonials"
    ensures NavLabel("contact") == "Contact"
  {
  }
}
