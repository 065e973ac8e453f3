module LlmTokens {
  /** Input and output tokens of language model calls. */
  datatype Tokens = Tokens(input: nat, output: nat) {
    function Plus(other: Tokens): Tokens {
      Tokens(input + other.input, output + other.output)
    }
  }
}
