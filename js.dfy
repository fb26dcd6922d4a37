/** The few JavaScript value semantics that both extension scripts depend on. */
module Js {

  /** A value that is either absent (`undefined` or `null`) or present. */
  datatype Option<+T> = None | Some(value: T)

  /** JavaScript truthiness of a value that is a string or absent:
      `undefined`, `null` and `''` are falsy, every other string is truthy. */
  predicate Truthy(v: Option<string>)
  {
    v.Some? && v.value != ""
  }

  /** `a || b` where `a` is a string or absent and `b` is a string. */
  function Or(a: Option<string>, b: string): (r: string)
    ensures Truthy(a) ==> r == a.value
    ensures !Truthy(a) ==> r == b
  {
    if Truthy(a) then a.value else b
  }

  /** The string that `+` makes of a string or `null`: `null` becomes "null". */
  function ToStr(v: Option<string>): string
  {
    match v
    case None => "null"
    case Some(s) => s
  }

  /** `s.startsWith(p)`. */
  predicate StartsWith(s: string, p: string)
  {
    p <= s
  }

  /** `s.endsWith(q)`. */
  predicate EndsWith(s: string, q: string)
  {
    |q| <= |s| && s[|s| - |q|..] == q
  }
}

/** The settings record the background script keeps and sends to pages. */
module Messages {
  import opened Js

  /** `{ prefix, suffix }`; either field may be `undefined` once its storage key is removed. */
  datatype Settings = Settings(prefix: Option<string>, suffix: Option<string>)

  /** The defaults the background script starts with. */
  const DefaultSettings := Settings(Some(""), Some(""))
}
