/** The pure parts of lang-graph-python/tutorial/main.py: the query string
    `searchInternet` sends, the `multiply` tool and the item access of
    `SearchToolInput`. */
module Tutorial {
  import opened Wrappers
  import opened Strings

  /** `f"{response} {', '.join(prereqs)}"`. */
  function SearchQuery(prereqs: seq<string>, response: string): (q: string)
    ensures |q| > |response| && q[..|response| + 1] == response + " "
    ensures |prereqs| == 0 ==> q == response + " "
    ensures |prereqs| == 1 ==> q == response + " " + prereqs[0]
    ensures |prereqs| > 1 ==>
              q == SearchQuery(prereqs[..|prereqs| - 1], response) + ", " + prereqs[|prereqs| - 1]
  {
    var listing := Join(prereqs, ", ");
    assert |prereqs| > 1 ==>
             listing == Join(prereqs[..|prereqs| - 1], ", ") + ", " + prereqs[|prereqs| - 1] by {
      if |prereqs| > 1 {
        JoinSnoc(prereqs[..|prereqs| - 1], prereqs[|prereqs| - 1], ", ");
        assert prereqs[..|prereqs| - 1] + [prereqs[|prereqs| - 1]] == prereqs;
      }
    }
    assert (response + " " + listing)[..|response| + 1] == response + " ";
    response + " " + listing
  }

  /** The Python values `multiply` can hand back. */
  datatype PyValue = PyInt(i: int) | PyStr(s: string)

  /** `multiply(a, b)`: Python's unbounded product, returned as an int even
      though the function is annotated `-> str`. */
  function Multiply(a: int, b: int): (r: PyValue)
    ensures r.PyInt? && !r.PyStr?
    ensures r.i == a * b
  {
    PyInt(a * b)
  }

  /** The fields of `SearchToolInput`. */
  datatype SearchToolInput = SearchToolInput(response: string, prereqs: seq<string>)

  /** An attribute value read back from a `SearchToolInput`. */
  datatype Attribute = StrAttr(s: string) | ListAttr(items: seq<string>)

  /** `getattr` fails: an `AttributeError` for the named attribute. */
  datatype AttributeError = AttributeError(name: string)

  /** `input[item]`, which `__getitem__` turns into `getattr(input, item)`. */
  function GetItem(input: SearchToolInput, item: string): (r: Result<Attribute, AttributeError>)
    ensures item == "response" <==> r == Ok(StrAttr(input.response))
    ensures item == "prereqs" <==> r == Ok(ListAttr(input.prereqs))
    ensures item != "response" && item != "prereqs" ==> r == Err(AttributeError(item))
  {
    if item == "response" then Ok(StrAttr(input.response))
    else if item == "prereqs" then Ok(ListAttr(input.prereqs))
    else Err(AttributeError(item))
  }

  /** Reading both fields by name rebuilds the input. */
  lemma GetItemRebuilds(input: SearchToolInput)
    ensures GetItem(input, "response").Ok? && GetItem(input, "response").value.StrAttr?
    ensures GetItem(input, "prereqs").Ok? && GetItem(input, "prereqs").value.ListAttr?
    ensures SearchToolInput(GetItem(input, "response").value.s, GetItem(input, "prereqs").value.items) == input
  {
  }

  /** The query built from a tool input read through `__getitem__`. */
  lemma SearchQueryFromInput(input: SearchToolInput)
    ensures GetItem(input, "prereqs").Ok? && GetItem(input, "prereqs").value.ListAttr?
    ensures GetItem(input, "response").Ok? && GetItem(input, "response").value.StrAttr?
    ensures SearchQuery(GetItem(input, "prereqs").value.items, GetItem(input, "response").value.s)
            == input.response + " " + Join(input.prereqs, ", ")
  {
  }
}
