/** The `scan_tokens` function of src/main.rs: scan one input with a fresh scanner
    and hand back its tokens or its error. Reading the input and printing the
    tokens are left to the caller. */
module Driver {
  import opened Tokens
  import opened Lexing
  import opened Scanning
  import ScanProperties

  method ScanTokens(input: seq<byte>) returns (r: Result<seq<Token>, ScannerError>)
    ensures r == Lex(input)
    ensures r.Ok? ==>
      && |r.value| > 0
      && r.value[|r.value| - 1].kind == Eof
      && forall i :: 0 <= i < |r.value| - 1 ==> r.value[i].kind != Eof
  {
    var scanner := new Scanner();
    scanner.ScanTokens(input);
    if scanner.err.Some? {
      r := Err(scanner.err.value);
    } else {
      r := Ok(scanner.tokens);
    }
    ScanProperties.EofExactlyWhenNoError(input);
  }
}
