/** The fluent way to hand a client a token for its next call. */
module ClientExtensions {

  import opened Client

  /**
   * Sets the token for the next call and returns the same client. The token
   * is overwritten, so the last call wins, and an empty token leaves the next
   * call on the API key.
   */
  method UseToken(client: ClientBase, token: string) returns (r: ClientBase)
    modifies client`token
    ensures r == client
    ensures client.token == token
    ensures client.Credential() == if token == "" then client.apiKey else token
  {
    client.SetToken(token);
    r := client;
  }
}
