/**
 * The visual intents of packages/core/src/common/intent.ts.
 * `NoIntent` is the intent spelled "none" there.
 */
module Intents {
  datatype Intent = NoIntent | Primary | Success | Warning | Danger
}
