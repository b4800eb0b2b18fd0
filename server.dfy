/** The greeting tool of the MCP server. */
module Server {
  import opened Wrappers

  const DefaultName := "World"
  const GreetingPrefix := "Hello, "
  const GreetingSuffix := "! Welcome to PR Inspector."

  /** `say_hello(name)`. */
  function SayHello(name: string): string {
    GreetingPrefix + name + GreetingSuffix
  }

  /** `say_hello()` with the default name. */
  function SayHelloDefault(): string {
    SayHello(DefaultName)
  }

  /** The name a greeting was made for, if the text is a greeting at all. */
  function GreetedName(text: string): (r: Option<string>)
  {
    if |text| >= |GreetingPrefix| + |GreetingSuffix|
       && text[..|GreetingPrefix|] == GreetingPrefix
       && text[|text| - |GreetingSuffix|..] == GreetingSuffix
    then Some(text[|GreetingPrefix|..|text| - |GreetingSuffix|])
    else None
  }

  /** Every greeting starts with the prefix, ends with the suffix and reveals its name. */
  lemma GreetingRoundTrip(name: string)
    ensures var g := SayHello(name);
            && |g| == |GreetingPrefix| + |name| + |GreetingSuffix|
            && g[..|GreetingPrefix|] == GreetingPrefix
            && g[|g| - |GreetingSuffix|..] == GreetingSuffix
            && GreetedName(g) == Some(name)
  {
    var g := SayHello(name);
    assert g[..|GreetingPrefix|] == GreetingPrefix;
    assert g[|g| - |GreetingSuffix|..] == GreetingSuffix;
    assert g[|GreetingPrefix|..|g| - |GreetingSuffix|] == name;
  }

  /** A text that reads as a greeting is the greeting of the name it reveals. */
  lemma GreetedNameIsExact(text: string, name: string)
    requires GreetedName(text) == Some(name)
    ensures SayHello(name) == text
  {
    assert text == text[..|GreetingPrefix|] + text[|GreetingPrefix|..|text| - |GreetingSuffix|] + text[|text| - |GreetingSuffix|..];
  }

  /** Distinct names give distinct greetings. */
  lemma SayHelloInjective(a: string, b: string)
    requires SayHello(a) == SayHello(b)
    ensures a == b
  {
    GreetingRoundTrip(a);
    GreetingRoundTrip(b);
  }

  /** The default greeting. */
  lemma DefaultGreeting()
    ensures SayHelloDefault() == "Hello, World! Welcome to PR Inspector."
  {
  }
}
