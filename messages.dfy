/** The closed set of intents the interface sends to the update step. */
module Messages {

  datatype Message =
    | SplitWithInputChanged(value: string)   // the friend-name box was edited
    | AmountInputChanged(value: string)      // the amount box was edited
    | DescriptionInputChanged(value: string) // the description box was edited
    | SplitPayment                           // the "Split Payment" button
    | SettleUp(user: string)                 // the "Settle Up" button beside a balance
    | SettleAmountChanged(value: string)     // the amount-to-settle box was edited
    | ConfirmSettleUp                        // the "Confirm" button of the settle-up view
    | SwitchToPayments                       // the "Payments" tab, or "Cancel" in settle-up
    | SwitchToHistory                        // the "History" tab
}
