/**
 The JSON objects tokens are made of. Printing and parsing themselves are not modelled: a
 `Codec` stands for them, and it is lawful when parsing inverts printing.
 */
module Json {
  import opened Wrappers
  import opened Base64

  datatype Value = Str(text: string) | Num(number: int) | Strs(items: seq<string>)

  type Object = map<string, Value>

  datatype Codec = Codec(encode: Object -> seq<Byte>, parse: seq<Byte> -> Option<Object>)

  ghost predicate Lawful(codec: Codec) {
    forall o :: codec.parse(codec.encode(o)) == Some(o)
  }

  predicate InInt64(n: int) {
    -0x8000_0000_0000_0000 <= n < 0x8000_0000_0000_0000
  }

  /** A string member of a decoded struct; `None` for a member of another type. */
  function StringOf(o: Object, name: string): Option<string> {
    if name !in o then Some("")
    else if o[name].Str? then Some(o[name].text)
    else None
  }

  /** An int64 member; a number that does not fit is an error too. */
  function IntOf(o: Object, name: string): Option<int> {
    if name !in o then Some(0)
    else if o[name].Num? && InInt64(o[name].number) then Some(o[name].number)
    else None
  }

  /** `omitempty`. */
  function WithText(o: Object, name: string, text: string): Object {
    if text == "" then o else o[name := Str(text)]
  }

  lemma WithTextReads(o: Object, name: string, text: string, other: string)
    requires name !in o
    ensures StringOf(WithText(o, name, text), name) == Some(text)
    ensures other != name ==>
      && StringOf(WithText(o, name, text), other) == StringOf(o, other)
      && (other in WithText(o, name, text) <==> other in o)
      && (other in o ==> WithText(o, name, text)[other] == o[other])
  {
  }
}
