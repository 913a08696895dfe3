/** The example activity `GreeterActivityServer.SayHello`: it turns a
    `HelloRequest{Name, Count}` into a `HelloResponse{Message, Result}`. */
module Greeter {
  import opened GoInt
  import Fmt

  datatype HelloRequest = HelloRequest(name: string, count: Int32)

  datatype HelloResponse = HelloResponse(message: string, result: Int32)

  /** The `context.Context` an activity receives; its content is opaque. */
  datatype Context = Context(identity: nat)

  datatype Error = Error(message: string)

  /** Go's `(*T, error)` pair: a value or an error. */
  datatype Result<T> = Ok(value: T) | Err(error: Error)

  const NamePart: string := "Hello, "
  const CountPart: string := "! (count: "
  const ClosePart: string := ")"

  /** The format string `"Hello, %s! (count: %d)"`. */
  const GreetingFormat: string := NamePart + "%s" + CountPart + "%d" + ClosePart

  /** The expected text of the greeting. */
  function Greeting(name: string, count: int): string
  {
    NamePart + name + CountPart + Fmt.FormatInt(count) + ClosePart
  }

  /** Rendering the greeting format fills in the name and then the count. */
  lemma RenderGreeting(name: string, count: Int32)
    ensures Fmt.SupportedFormat(GreetingFormat)
    ensures Fmt.Sprintf(GreetingFormat, [Fmt.StringArg(name), Fmt.Int32Arg(count)])
         == Greeting(name, count)
  {
    assert Fmt.NoPercent(NamePart) && Fmt.NoPercent(CountPart) && Fmt.NoPercent(ClosePart);
    Fmt.SprintfStringThenInt(NamePart, CountPart, ClosePart, name, count);
  }

  /** `SayHello(ctx, input)`: never fails; the message is the greeting with
      the name and the decimal count filled in, and the result is twice the
      count in int32 arithmetic, that is, congruent to `2 * count` modulo
      2^32 (which, by `GoInt.Int32Congruent`, fixes it). */
  function SayHello(ctx: Context, input: HelloRequest): (r: Result<HelloResponse>)
    ensures r.Ok?
    ensures r.value.message == Greeting(input.name, input.count)
    ensures (r.value.result - 2 * input.count) % TWO_32 == 0
  {
    var args := [Fmt.StringArg(input.name), Fmt.Int32Arg(input.count)];
    assert Fmt.SupportedFormat(GreetingFormat)
        && Fmt.Sprintf(GreetingFormat, args) == Greeting(input.name, input.count) by {
      RenderGreeting(input.name, input.count);
    }
    Ok(HelloResponse(Fmt.Sprintf(GreetingFormat, args), MulInt32(input.count, 2)))
  }

  /** The activity does not look at its context. */
  lemma SayHelloIgnoresContext(c1: Context, c2: Context, input: HelloRequest)
    ensures SayHello(c1, input) == SayHello(c2, input)
  {
  }

  /** The example request of the repository's starter program. */
  lemma SayHelloWorld(ctx: Context)
    ensures SayHello(ctx, HelloRequest("World", 5)) ==
      Ok(HelloResponse("Hello, World! (count: 5)", 10))
  {
    var r := SayHello(ctx, HelloRequest("World", 5));
    assert Fmt.FormatInt(5) == "5";
    assert Greeting("World", 5) == "Hello, World! (count: 5)";
    Int32Congruent(r.value.result, 10);
  }

  /** When twice the count fits in an int32 the result is exactly twice the count. */
  lemma SayHelloNoOverflow(ctx: Context, input: HelloRequest)
    requires -0x4000_0000 <= input.count < 0x4000_0000
    ensures SayHello(ctx, input).value.result == 2 * input.count
  {
    Int32Congruent(SayHello(ctx, input).value.result, 2 * input.count);
  }

  /** Beyond that range the multiplication wraps around. */
  lemma SayHelloWraps(ctx: Context)
    ensures SayHello(ctx, HelloRequest("", 0x4000_0000)).value.result == -0x8000_0000
    ensures SayHello(ctx, HelloRequest("", 0x7fff_ffff)).value.result == -2
    ensures SayHello(ctx, HelloRequest("", -0x8000_0000)).value.result == 0
  {
    Int32Congruent(SayHello(ctx, HelloRequest("", 0x4000_0000)).value.result, -0x8000_0000);
    Int32Congruent(SayHello(ctx, HelloRequest("", 0x7fff_ffff)).value.result, -2);
    Int32Congruent(SayHello(ctx, HelloRequest("", -0x8000_0000)).value.result, 0);
  }

  /** The count can be read back from the message: the text between the
      name part and the closing parenthesis parses to the count. */
  lemma SayHelloCountReadable(ctx: Context, input: HelloRequest)
    ensures var m := SayHello(ctx, input).value.message;
            var start := |NamePart + input.name + CountPart|;
            start < |m| && Fmt.ParseInt(m[start..|m| - 1]) == Fmt.Some(input.count as int)
  {
    var m := SayHello(ctx, input).value.message;
    var prefix := NamePart + input.name + CountPart;
    var digits := Fmt.FormatInt(input.count);
    assert m == prefix + digits + ClosePart;
    assert m[|prefix|..|m| - 1] == digits;
    Fmt.FormatIntRoundTrip(input.count);
  }
}
