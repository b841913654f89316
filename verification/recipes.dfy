/** The record fetched from the recipe source, and the small string helpers
    the filters need. Only the fields the core reads are kept. */
module Recipes {

  datatype Option<+T> = None | Some(value: T)

  /** One recipe as returned by the remote page. `difficulty` is the raw text
      the source sends ("Easy", "Medium", "Hard"); `mealType` is its tag list
      ("Breakfast", "Lunch", "Dinner", ...). */
  datatype Recipe = Recipe(id: int, name: string, difficulty: string, mealType: seq<string>)

  function LowerChar(c: char): char
  {
    if 'A' <= c <= 'Z' then (c as int + 32) as char else c
  }

  function UpperChar(c: char): char
  {
    if 'a' <= c <= 'z' then (c as int - 32) as char else c
  }

  /** `toLowerCase`, restricted to the ASCII letters. */
  function ToLower(s: string): (r: string)
    ensures |r| == |s|
    ensures forall i | 0 <= i < |s| :: r[i] == LowerChar(s[i])
  {
    seq(|s|, i requires 0 <= i < |s| => LowerChar(s[i]))
  }

  /** First letter upper-cased, the rest kept: "lunch" becomes "Lunch". */
  function Capitalise(s: string): (r: string)
    ensures |r| == |s|
  {
    if |s| == 0 then s else [UpperChar(s[0])] + s[1..]
  }

  /** `mealType.includes(tag)`. */
  predicate HasTag(r: Recipe, tag: string)
  {
    tag in r.mealType
  }

  /** `a.toLowerCase() === b.toLowerCase()`. */
  predicate EqualsIgnoreCase(a: string, b: string)
  {
    ToLower(a) == ToLower(b)
  }
}
