/** The exceptions the extension manager's code can throw, by cause. */
module Errors {

  datatype Error =
    /** `new Error('Invalid extension id')` */
    | InvalidExtensionId
    /** `new Error('Missing opcode for block')` */
    | MissingOpcode
    /** `` new Error(`Extension menu returned no items: ${menuItemFunctionName}`) `` */
    | NoMenuItems(functionName: string)
    /** TypeError: a property read on the `undefined` provider of an unregistered service. */
    | ServiceNotFound(serviceName: string)
    /** TypeError: the menu function `functionName` read on the `undefined` provider of a menu
     *  whose service was not registered when the menu was prepared. */
    | NoMenuProvider(functionName: string)
    /** TypeError: the named menu function is not a property of the provider. */
    | NotAFunction(functionName: string)
    /** TypeError: `item.text` read on a `null` menu item. */
    | NullMenuItem
    /** TypeError: `workerInfo.extensionURL` read after shifting an empty queue. */
    | NoPendingExtension
    /** TypeError: `workerInfo.reject`/`resolve` read on a worker id with no pending load. */
    | NoPendingWorker(id: nat)
}
