/**
 * The chat messages the handlers send through `bot.sendMessage`, as values.
 * The fixed texts of MESSAGES (backend/src/config/constants.js) are
 * represented by their constructor; only the mint-error text and the
 * wallet-connected address are spelled out, because the handlers compute them.
 */
module Messages {

  datatype Reply =
    | ErrorReply                                              // MESSAGES.ERROR
    | MintSuccessReply(tokenId: int, transactionHash: string)  // MESSAGES.MINT_SUCCESS(tokenId, txHash)
    | WalletConnectedReply(shortAddress: string)             // 'Wallet connected successfully! ... Address: ...'
    | MintFailedReply(text: string)                          // handleMintError's computed text
    | MaxLimitReply                                          // MESSAGES.MAX_LIMIT
    | CooldownReply(seconds: int)                            // MESSAGES.COOLDOWN(seconds)
    | MintIntroReply(webappUrl: string)                      // MESSAGES.MINT_INTRO with the webapp button
}
