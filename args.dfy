/**
 * The argument-shape logic of internal/handlers/handlers.go: a command value,
 * `clean_input`, and the limit that `browse` computes from its argument.
 *
 * Strings are sequences of characters (runes). `clean_input` indexes and slices bytes in
 * Go; on text whose first and last characters are ASCII the two agree.
 */
module Args {
  import opened Wrappers
  import opened Session

  /** A command name and its positional arguments. */
  datatype Command = Command(name: string, args: seq<string>)

  predicate IsQuote(c: char) {
    c == '\'' || c == '"'
  }

  /** What `clean_input` needs not to panic: `s[0]` exists and `s[1:len(s)-1]` is a valid slice. */
  predicate Cleanable(s: string) {
    |s| >= 1 && (IsQuote(s[0]) ==> |s| >= 2)
  }

  /**
   * `clean_input`: a string opening with a quote loses its first and its last character,
   * whatever the last one is; any other string comes back unchanged.
   */
  function CleanInput(s: string): (r: string)
    requires Cleanable(s)
    ensures IsQuote(s[0]) ==> |r| == |s| - 2 && s == [s[0]] + r + [s[|s| - 1]]
    ensures !IsQuote(s[0]) ==> r == s
  {
    if IsQuote(s[0]) then s[1..|s| - 1] else s
  }

  /** `clean_input` as a handler sees it: the cleaned string, or the panic it raises. */
  function CleanArg(s: string): (r: Result<string, PanicKind>)
    ensures r.Success? <==> Cleanable(s)
    ensures r.Success? ==> r.value == CleanInput(s)
    ensures |s| == 0 ==> r == Failure(IndexOutOfRange)
    ensures |s| == 1 && IsQuote(s[0]) ==> r == Failure(SliceOutOfRange)
  {
    if |s| == 0 then Failure(IndexOutOfRange)
    else if IsQuote(s[0]) && |s| == 1 then Failure(SliceOutOfRange)
    else Success(CleanInput(s))
  }

  /** Go's int32. */
  newtype int32 = x: int | -0x8000_0000 <= x < 0x8000_0000

  /** Two's-complement wrap-around of an integer into int32. */
  function Wrap32(x: int): (r: int32)
    ensures -0x8000_0000 <= x < 0x8000_0000 ==> r as int == x
    ensures (r as int - x) % 0x1_0000_0000 == 0
  {
    ((x + 0x8000_0000) % 0x1_0000_0000 - 0x8000_0000) as int32
  }

  /** One step of the limit loop: `limit*10 + int32(v - '0')`, each operation wrapping in int32. */
  function LimitStep(limit: int32, v: char): int32 {
    Wrap32(Wrap32(limit as int * 10) as int + (v as int - '0' as int))
  }

  /** The limit loop folded over the runes of `s`, from the left, starting at 0. */
  function LimitFold(s: string): int32 {
    if s == [] then 0 else LimitStep(LimitFold(s[..|s| - 1]), s[|s| - 1])
  }

  predicate AllDigits(s: string) {
    forall i :: 0 <= i < |s| ==> '0' <= s[i] <= '9'
  }

  /** The decimal value of a digit string, in unbounded integers. */
  function DecimalValue(s: string): nat
    requires AllDigits(s)
  {
    if s == [] then 0 else 10 * DecimalValue(s[..|s| - 1]) + (s[|s| - 1] as int - '0' as int)
  }

  /** For a digit string whose value fits in int32, the wrapping fold is the decimal value. */
  lemma {:induction false} LimitFoldIsDecimal(s: string)
    requires AllDigits(s) && DecimalValue(s) < 0x8000_0000
    ensures LimitFold(s) as int == DecimalValue(s)
  {
    if s != [] {
      var init := s[..|s| - 1];
      assert AllDigits(init) by {
        forall i | 0 <= i < |init| ensures '0' <= init[i] <= '9' { assert init[i] == s[i]; }
      }
      assert DecimalValue(init) <= DecimalValue(s);
      LimitFoldIsDecimal(init);
    }
  }

  /** The limit `browse` passes to the query: 2 without arguments, else the fold over the cleaned first one. */
  function BrowseLimit(args: seq<string>): (r: Result<int32, PanicKind>)
    ensures |args| == 0 ==> r == Success(2)
    ensures |args| > 0 ==> (r.Success? <==> Cleanable(args[0]))
    ensures |args| > 0 && r.Success? ==> r.value == LimitFold(CleanInput(args[0]))
  {
    if |args| == 0 then Success(2)
    else match CleanArg(args[0])
      case Failure(p) => Failure(p)
      case Success(c) => Success(LimitFold(c))
  }

  /** The limit computation of `handlerBrowse`, with its accumulation loop over the runes. */
  method ComputeLimit(args: seq<string>) returns (r: Result<int32, PanicKind>)
    ensures r == BrowseLimit(args)
  {
    if |args| == 0 {
      return Success(2);
    }
    var cleaned := CleanArg(args[0]);
    if cleaned.Failure? {
      return Failure(cleaned.error);
    }
    var c := cleaned.value;
    var limit: int32 := 0;
    var i := 0;
    while i < |c|
      invariant 0 <= i <= |c|
      invariant limit == LimitFold(c[..i])
    {
      assert c[..i + 1][..i] == c[..i];
      limit := LimitStep(limit, c[i]);
      i := i + 1;
    }
    assert c[..i] == c;
    r := Success(limit);
  }
}
