/** The fields of an approval token (shared/approval_token.py:52-65). */
module Claims {
  datatype Claims = Claims(
    proposalId: string,
    payloadHash: string,
    actionType: string,
    approver: string,
    nonce: string,
    iat: int,
    exp: int)
}
