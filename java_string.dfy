/** The parts of java.lang.String that the request filter relies on. */
module JavaString {

  /** String.startsWith(prefix): the string begins with every character of `prefix`, in order.
      Defined the way the library compares, one character at a time from the front. */
  function StartsWith(s: string, prefix: string): (r: bool)
    ensures r <==> |prefix| <= |s| && s[..|prefix|] == prefix
  {
    if prefix == [] then true
    else if s == [] then false
    else s[0] == prefix[0] && StartsWith(s[1..], prefix[1..])
  }
}
