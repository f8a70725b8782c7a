/** The delivery queue as far as the API touches it: the job record that
    `webhookQueue.add` receives and the default job options every queue is
    created with (backend/src/config/queue.js). The retry, backoff and
    retention behaviour behind these options belongs to the queue library
    and is not modelled. */
module QueueConfig {

  /** Name of the queue that webhook delivery jobs go to. */
  const WebhookQueueName: string := "webhook-delivery"

  /** Name under which a delivery job is added. */
  const DeliverWebhook: string := "deliver-webhook"

  datatype Backoff = Backoff(kind: string, delay: nat)

  datatype JobOptions = JobOptions(
    attempts: nat,
    backoff: Backoff,
    removeOnComplete: nat,
    removeOnFail: nat)

  /** The `defaultJobOptions` every queue is created with: three attempts,
      exponential backoff from a 2000 ms base, keep the last 100 completed and
      the last 100 failed jobs. */
  const DefaultJobOptions: JobOptions :=
    JobOptions(3, Backoff("exponential", 2000), 100, 100)

  /** What a delivery job carries: enough to deliver without re-reading the
      log store. */
  datatype DeliveryData = DeliveryData(
    webhookLogId: string,
    merchantId: string,
    event: string,
    payload: string)

  /** A job as it sits in a queue: its name, its data and the options the
      queue applied. */
  datatype Job = Job(queue: string, name: string, data: DeliveryData, opts: JobOptions)
}
